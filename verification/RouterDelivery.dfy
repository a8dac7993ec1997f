/**
 What becomes of every message the router was asked for.  The requests and the refusals of a run are
 observed from outside, step by step, and compared with what was sent when the router comes to rest.
 */
module RouterDelivery {
  import opened Wrappers
  import opened Domain
  import opened Notifications
  import opened Tracking
  import opened RouterProtocol

  // ---- What was asked for, and what revalidation refused ----

  /** The message an open router is asked for by this step. */
  function Requested(s: State, step: Step): Option<Job> {
    if !step.TrackerCall? || s.signalling || s.closed || s.at >= |s.script| || step.chats == [] then None
    else
      match s.script[s.at]
      case NotifyOpen(signal) => Some(Job(JobKey(signal.id, OpenJob), step.chats, signal, true))
      case NotifyUpdate(signal) => Some(Job(JobKey(signal.id, UpdateJob), step.chats, signal, true))
      case NotifyClose(signal) => Some(Job(JobKey(signal.id, CloseJob), step.chats, signal, false))
      case _ => None
  }

  /** The job that revalidation gives up in this step. */
  function RefusedBy(s: State, step: Step): set<Job> {
    if step.Judge? && step.kept.None? && step.w < |s.workers| && s.workers[step.w].Judging? then {s.workers[step.w].job}
    else {}
  }

  /** The newest request of every signal and kind. */
  function Requests(workers: nat, script: seq<Call>, steps: seq<Step>): map<JobKey, Job>
    requires Execute(Init(workers, script), steps).Some?
  {
    if steps == [] then map[]
    else
      var front := steps[..|steps| - 1];
      var job := Requested(Execute(Init(workers, script), front).value, steps[|steps| - 1]);
      if job.None? then Requests(workers, script, front) else Requests(workers, script, front)[job.value.key := job.value]
  }

  function Refusals(workers: nat, script: seq<Call>, steps: seq<Step>): set<Job>
    requires Execute(Init(workers, script), steps).Some?
  {
    if steps == [] then {}
    else
      var front := steps[..|steps| - 1];
      Refusals(workers, script, front) + RefusedBy(Execute(Init(workers, script), front).value, steps[|steps| - 1])
  }

  /** To all chats of the job, or, if the job was to be revalidated, to some of them. */
  predicate ToThese(chats: seq<int>, job: Job) {
    chats == job.chats || (job.revalidate && chats != [] && forall c :: c in chats ==> c in job.chats)
  }

  predicate IsMessage(m: Mark, job: Job) {
    m.Sent? && m.id == job.key.id && m.kind == job.key.kind && m.signal == job.signal && ToThese(m.chats, job)
  }

  predicate WasSent(trace: seq<Mark>, job: Job) { exists i :: 0 <= i < |trace| && IsMessage(trace[i], job) }

  predicate Carries(pc: Pc, job: Job) {
    && HasJob(pc) && pc.job.key == job.key && pc.job.signal == job.signal && pc.job.revalidate == job.revalidate
    && ToThese(pc.job.chats, job) && (pc.Checking? || pc.Judging? ==> pc.job == job)
  }

  predicate IsCarried(s: State, job: Job) { exists w :: 0 <= w < |s.workers| && Carries(s.workers[w], job) }

  /** Only an invalidated signal's messages other than the close are dropped. */
  predicate CalledOff(s: State, job: Job) { job.key.kind != CloseJob && job.key.id in s.invalidated }

  /** Pending, in a worker's hands, sent, refused or called off; a closed router promises nothing. */
  predicate OnItsWay(s: State, refused: set<Job>, job: Job) {
    || s.closed || job in refused || CalledOff(s, job) || Get(s.pending, job.key) == Some(job)
    || IsCarried(s, job) || WasSent(s.trace, job)
  }

  // ---- No request is lost on the way ----

  /** A step of the worker that carries the job. */
  lemma CarrierStep(s: State, step: Step, job: Job)
    requires OfWorker(step) && WorkerNext(s, step).Some? && Carries(s.workers[step.w], job) && !s.closed
    ensures OnItsWay(WorkerNext(s, step).value, RefusedBy(s, step), job)
  {
    hide IsCarried;
    hide WasSent;
    var w, pc, s' := step.w, s.workers[step.w], WorkerNext(s, step).value;
    EffectFrame(s, pc, step);
    var pc' := NextPc(s, pc, step).value;
    assert s'.workers[w] == pc' && s'.invalidated == s.invalidated;
    if step.Deliver? {
      assert s'.trace == s.trace + [MarkOf(pc.job)];
      SentNow(s.trace, pc.job, job);
    } else if HasJob(pc') {
      CarriedOn(s, pc, step, job);
      assert IsCarried(s', job) by { StillCarried(s', w, job); }
    } else {
      GivenUp(s, pc, step, job);
    }
  }

  lemma StillCarried(s: State, w: nat, job: Job)
    requires w < |s.workers| && Carries(s.workers[w], job)
    ensures IsCarried(s, job)
  {
  }

  lemma SentNow(trace: seq<Mark>, carried: Job, job: Job)
    requires carried.key == job.key && carried.signal == job.signal && ToThese(carried.chats, job)
    ensures WasSent(trace + [MarkOf(carried)], job)
  {
    assert IsMessage((trace + [MarkOf(carried)])[|trace|], job);
  }

  lemma CarriedOn(s: State, pc: Pc, step: Step, job: Job)
    requires OfWorker(step) && NextPc(s, pc, step).Some? && Carries(pc, job) && HasJob(NextPc(s, pc, step).value)
    ensures Carries(NextPc(s, pc, step).value, job)
  {
    hide Stale;
  }

  /** A worker of an open router lets go of a job it has not sent only after a refusal, or when the signal is invalidated. */
  lemma GivenUp(s: State, pc: Pc, step: Step, job: Job)
    requires OfWorker(step) && NextPc(s, pc, step).Some? && Carries(pc, job) && !HasJob(NextPc(s, pc, step).value)
    requires !step.Deliver? && !s.closed && step.w < |s.workers| && s.workers[step.w] == pc
    ensures CalledOff(s, job) || job in RefusedBy(s, step)
  {
    hide MayKeep;
  }

  lemma TakenIsHeld(s: State, pc: Pc, step: Step)
    requires step.Take? && NextPc(s, pc, step).Some?
    ensures step.key in s.pending && NextPc(s, pc, step).value == Checking(s.pending[step.key])
  {
  }

  lemma WorkerKeepsOnItsWay(s: State, step: Step, refused: set<Job>, job: Job)
    requires OfWorker(step) && WorkerNext(s, step).Some? && OnItsWay(s, refused, job)
    ensures OnItsWay(WorkerNext(s, step).value, refused + RefusedBy(s, step), job)
  {
    hide NextPc;
    hide Effect;
    hide Carries;
    hide IsMessage;
    hide RefusedBy;
    var w, pc, s' := step.w, s.workers[step.w], WorkerNext(s, step).value;
    EffectFrame(s, pc, step);
    if Get(s.pending, job.key) == Some(job) && step.Take? && step.key == job.key {
      TakenIsHeld(s, pc, step);
      assert Carries(Checking(job), job) by { CarriesItself(job); }
      assert s'.workers[w] == Checking(job);
    } else if WasSent(s.trace, job) {
      var i :| 0 <= i < |s.trace| && IsMessage(s.trace[i], job);
      assert s'.trace[i] == s.trace[i];
    } else if IsCarried(s, job) && !s.closed {
      var v :| 0 <= v < |s.workers| && Carries(s.workers[v], job);
      if v == w {
        CarrierStep(s, step, job);
      } else {
        assert s'.workers[v] == s.workers[v];
      }
    }
  }

  lemma CarriesItself(job: Job)
    ensures Carries(Checking(job), job)
  {
  }

  lemma TrackerFrame(s: State, chats: seq<int>, job: Job)
    requires TrackerNext(s, chats).Some?
    ensures var s' := TrackerNext(s, chats).value;
      s'.workers == s.workers && s.trace <= s'.trace && s.invalidated <= s'.invalidated && (IsCarried(s, job) ==> IsCarried(s', job))
  {
    hide Carries;
  }

  /** The tracker takes a request back only by a newer one, or after the invalidation. */
  lemma TrackerKeepsOnItsWay(s: State, chats: seq<int>, refused: set<Job>, job: Job)
    requires Inv(s) && TrackerNext(s, chats).Some? && OnItsWay(s, refused, job)
    ensures var job' := Requested(s, TrackerCall(chats));
      OnItsWay(TrackerNext(s, chats).value, refused, job) || (job'.Some? && job'.value.key == job.key)
  {
    hide Carries;
    hide IsMessage;
    hide GoodScript;
    hide OnlyCloseAfter;
    hide CloseAfterInvalid;
    hide PendingSound;
    hide HeldSound;
    hide Marks;
    hide LockHeld;
    var s' := TrackerNext(s, chats).value;
    TrackerFrame(s, chats, job);
    hide JobFor;
    hide IsCarried;
    if WasSent(s.trace, job) {
      var i :| 0 <= i < |s.trace| && IsMessage(s.trace[i], job);
      assert s'.trace[i] == s.trace[i];
    } else if s.script[s.at].DropUpdate? {
      CloseIsInvalidated(s);
    }
  }

  lemma StepKeepsOnItsWay(s: State, step: Step, refused: set<Job>, job: Job)
    requires Inv(s) && Next(s, step).Some? && OnItsWay(s, refused, job)
    ensures var job' := Requested(s, step);
      OnItsWay(Next(s, step).value, refused + RefusedBy(s, step), job) || (job'.Some? && job'.value.key == job.key)
  {
    hide WorkerNext;
    hide TrackerNext;
    hide Carries;
    hide IsMessage;
    hide Inv;
    if OfWorker(step) {
      WorkerKeepsOnItsWay(s, step, refused, job);
    } else if step.TrackerCall? {
      TrackerKeepsOnItsWay(s, step.chats, refused, job);
      assert refused + RefusedBy(s, step) == refused;
    } else {
      assert refused + RefusedBy(s, step) == refused;
    }
  }

  /** A request is queued at once. */
  lemma RequestIsQueued(s: State, step: Step, refused: set<Job>)
    requires Next(s, step).Some? && Requested(s, step).Some?
    ensures OnItsWay(Next(s, step).value, refused, Requested(s, step).value)
  {
    hide IsCarried;
    hide WasSent;
  }

  ghost predicate AllOnTheirWay(s: State, refused: set<Job>, requests: map<JobKey, Job>) {
    forall key :: key in requests ==> requests[key].key == key && OnItsWay(s, refused, requests[key])
  }

  lemma {:induction false} NoRequestLost(workers: nat, script: seq<Call>, steps: seq<Step>)
    requires GoodScript(script) && Execute(Init(workers, script), steps).Some?
    ensures AllOnTheirWay(Execute(Init(workers, script), steps).value, Refusals(workers, script, steps), Requests(workers, script, steps))
  {
    hide Next;
    hide Inv;
    hide GoodScript;
    hide OnItsWay;
    hide Requested;
    hide RefusedBy;
    if steps != [] {
      var front, step := steps[..|steps| - 1], steps[|steps| - 1];
      NoRequestLost(workers, script, front);
      ReachedStates(workers, script, front);
      var s := Execute(Init(workers, script), front).value;
      var requests, refused := Requests(workers, script, front), Refusals(workers, script, front);
      if Requested(s, step).Some? {
        RequestIsQueued(s, step, refused + RefusedBy(s, step));
      }
      forall key | key in requests ensures OnItsWay(Next(s, step).value, refused + RefusedBy(s, step), requests[key])
                                        || (Requested(s, step).Some? && Requested(s, step).value.key == key) {
        StepKeepsOnItsWay(s, step, refused, requests[key]);
      }
    }
  }

  /** Closes are not revalidated, and what revalidation refuses was to be revalidated. */
  lemma {:induction false} OnlyRevalidatedRefused(workers: nat, script: seq<Call>, steps: seq<Step>)
    requires Execute(Init(workers, script), steps).Some?
    ensures forall job :: job in Refusals(workers, script, steps) ==> job.revalidate
    ensures var q := Requests(workers, script, steps); forall key :: key in q ==> (q[key].revalidate <==> key.kind != CloseJob)
  {
    if steps != [] {
      var front, step := steps[..|steps| - 1], steps[|steps| - 1];
      OnlyRevalidatedRefused(workers, script, front);
      RefusedIsRevalidated(Execute(Init(workers, script), front).value, step);
      hide Next;
    }
  }

  lemma RefusedIsRevalidated(s: State, step: Step)
    requires Next(s, step).Some?
    ensures forall job :: job in RefusedBy(s, step) ==> job.revalidate
    ensures Requested(s, step).Some? ==> var job := Requested(s, step).value; job.revalidate <==> job.key.kind != CloseJob
  {
  }

  /** The router is open and at rest: all workers asleep, no token and no signal on the way. */
  predicate Quiet(s: State) {
    !s.closed && !s.token && !s.signalling && forall w :: 0 <= w < |s.workers| ==> !Busy(s.workers[w])
  }

  /**
   When the router is at rest nothing is pending, every close asked for was sent to all its chats, and
   the newest opening and the newest update asked for of every signal were sent, unless revalidation
   refused that very message or the signal was invalidated.
   */
  lemma QuietMeansTold(workers: nat, script: seq<Call>, steps: seq<Step>)
    requires GoodScript(script) && Execute(Init(workers, script), steps).Some?
    ensures var s := Execute(Init(workers, script), steps).value; Quiet(s) ==>
      && s.pending == map[]
      && forall key :: key in Requests(workers, script, steps) ==>
        Settled(s, Refusals(workers, script, steps), key, Requests(workers, script, steps)[key])
  {
    hide Execute;
    hide Init;
    hide GoodScript;
    hide OnItsWay;
    ReachedStates(workers, script, steps);
    NoRequestLost(workers, script, steps);
    OnlyRevalidatedRefused(workers, script, steps);
    var s := Execute(Init(workers, script), steps).value;
    var requests, refused := Requests(workers, script, steps), Refusals(workers, script, steps);
    if Quiet(s) {
      forall key | key in requests ensures Settled(s, refused, key, requests[key]) {
        RestSettles(s, refused, requests[key]);
      }
    }
  }

  predicate Settled(s: State, refused: set<Job>, key: JobKey, job: Job) {
    && job.key == key
    && (key.kind == CloseJob ==> exists i :: 0 <= i < |s.trace| && s.trace[i] == MarkOf(job))
    && (key.kind != CloseJob ==> WasSent(s.trace, job) || job in refused || Invalidated(key.id) in s.trace)
  }

  lemma RestSettles(s: State, refused: set<Job>, job: Job)
    requires Inv(s) && NoLostWake(s) && Quiet(s) && OnItsWay(s, refused, job)
    requires (job.revalidate <==> job.key.kind != CloseJob) && forall other :: other in refused ==> other.revalidate
    ensures s.pending == map[] && Settled(s, refused, job.key, job)
  {
    hide GoodScript;
    hide OnlyCloseAfter;
    hide CloseAfterInvalid;
    assert !IsCarried(s, job);
    if WasSent(s.trace, job) {
      var i :| 0 <= i < |s.trace| && IsMessage(s.trace[i], job);
      assert job.key.kind == CloseJob ==> s.trace[i] == MarkOf(job);
    }
  }

  // ---- The router comes to rest ----

  /** The lock is held by a worker that is past it, nobody has left an open router, and every job has chats. */
  predicate Alive(s: State) {
    && (s.lock.Some? ==> s.lock.value < |s.workers| && (s.workers[s.lock.value].Holding? || s.workers[s.lock.value].Sending?))
    && (forall w :: 0 <= w < |s.workers| && s.workers[w].Exited? ==> s.closed)
    && (forall w :: 0 <= w < |s.workers| && HasJob(s.workers[w]) ==> s.workers[w].job.chats != [])
    && (forall key :: key in s.pending ==> s.pending[key].chats != [])
  }

  lemma WorkerStaysAlive(s: State, step: Step)
    requires Alive(s) && LockHeld(s) && OfWorker(step) && WorkerNext(s, step).Some?
    ensures Alive(WorkerNext(s, step).value)
  {
    hide NextPc;
    hide Effect;
    var w, pc, s' := step.w, s.workers[step.w], WorkerNext(s, step).value;
    EffectFrame(s, pc, step);
    PcStaysAlive(s, pc, step);
    LockMoves(s, pc, step);
    forall v | 0 <= v < |s'.workers| && v != w ensures s'.workers[v] == s.workers[v] {
    }
    assert s'.workers[w] == NextPc(s, pc, step).value;
  }

  lemma PcStaysAlive(s: State, pc: Pc, step: Step)
    requires OfWorker(step) && NextPc(s, pc, step).Some? && (pc.Exited? ==> s.closed)
    requires HasJob(pc) ==> pc.job.chats != []
    requires forall key :: key in s.pending ==> s.pending[key].chats != []
    ensures var pc' := NextPc(s, pc, step).value; (HasJob(pc') ==> pc'.job.chats != []) && (pc'.Exited? ==> s.closed)
  {
    hide Stale;
  }

  lemma LockMoves(s: State, pc: Pc, step: Step)
    requires OfWorker(step) && NextPc(s, pc, step).Some?
    ensures var e, pc' := Effect(s, pc, step), NextPc(s, pc, step).value;
      || (e.lock == s.lock && (pc.Holding? || pc.Sending? <==> pc'.Holding? || pc'.Sending?))
      || e.lock.None?
      || (e.lock == Some(step.w) && pc'.Holding?)
  {
    hide MayKeep;
    hide Stale;
  }

  lemma TrackerStaysAlive(s: State, chats: seq<int>)
    requires Alive(s) && TrackerNext(s, chats).Some?
    ensures Alive(TrackerNext(s, chats).value)
  {
    hide Alive;
    CallKeepsCrew(s, chats);
    CallPends(s, chats);
    SameCrewAlive(s, TrackerNext(s, chats).value);
    hide TrackerNext;
  }

  lemma SameCrewAlive(s: State, s': State)
    requires Alive(s) && s'.workers == s.workers && s'.lock == s.lock && s'.closed == s.closed
    requires forall key :: key in s'.pending ==> s'.pending[key].chats != [] || Get(s.pending, key) == Some(s'.pending[key])
    ensures Alive(s')
  {
  }

  lemma CallPends(s: State, chats: seq<int>)
    requires TrackerNext(s, chats).Some?
    ensures var s' := TrackerNext(s, chats).value;
      forall key :: key in s'.pending ==> s'.pending[key].chats != [] || Get(s.pending, key) == Some(s'.pending[key])
  {
  }

  lemma StepStaysAlive(s: State, step: Step)
    requires Alive(s) && LockHeld(s) && Next(s, step).Some?
    ensures Alive(Next(s, step).value) && |Next(s, step).value.workers| == |s.workers|
  {
    hide WorkerNext;
    hide TrackerNext;
    if OfWorker(step) {
      WorkerStaysAlive(s, step);
      SameCrew(s, step);
    } else if step.TrackerCall? {
      TrackerStaysAlive(s, step.chats);
      assert TrackerNext(s, step.chats).value.workers == s.workers by { CallKeepsCrew(s, step.chats); }
    }
  }

  lemma SameCrew(s: State, step: Step)
    requires OfWorker(step) && WorkerNext(s, step).Some?
    ensures |WorkerNext(s, step).value.workers| == |s.workers|
  {
    EffectFrame(s, s.workers[step.w], step);
    hide Effect;
    hide NextPc;
  }

  lemma CallKeepsCrew(s: State, chats: seq<int>)
    requires TrackerNext(s, chats).Some?
    ensures var s' := TrackerNext(s, chats).value; s'.workers == s.workers && s'.lock == s.lock && s'.closed == s.closed
  {
  }

  lemma {:induction false} ReachedAlive(workers: nat, script: seq<Call>, steps: seq<Step>)
    requires GoodScript(script) && Execute(Init(workers, script), steps).Some?
    ensures Alive(Execute(Init(workers, script), steps).value) && |Execute(Init(workers, script), steps).value.workers| == workers
  {
    hide Next;
    hide GoodScript;
    if steps != [] {
      var front := steps[..|steps| - 1];
      ReachedAlive(workers, script, front);
      ReachedStates(workers, script, front);
      hide Alive;
      StepStaysAlive(Execute(Init(workers, script), front).value, steps[|steps| - 1]);
    }
  }

  function Rank(pc: Pc): nat {
    match pc
    case Waiting => 0
    case Exited => 0
    case Draining => 2
    case Sending(_) => 4
    case Holding(_) => 5
    case Locking(_) => 6
    case Ready(_) => 7
    case Judging(_) => 8
    case Checking(_) => 9
  }

  function Ranks(workers: seq<Pc>): nat {
    if workers == [] then 0 else Ranks(workers[..|workers| - 1]) + Rank(workers[|workers| - 1])
  }

  lemma {:induction false} RanksMove(workers: seq<Pc>, w: nat, pc: Pc)
    requires w < |workers|
    ensures Ranks(workers[w := pc]) + Rank(workers[w]) == Ranks(workers) + Rank(pc)
  {
    var front, last := workers[..|workers| - 1], |workers| - 1;
    if w < last {
      assert workers[w := pc][..last] == front[w := pc];
      RanksMove(front, w, pc);
    } else {
      assert workers[w := pc][..last] == front;
    }
  }

  /** How much is left to do. */
  function Work(s: State): nat {
    12 * |s.pending| + Ranks(s.workers) + (if s.token then 3 else 0) + if s.signalling then 5 else 0
  }

  /** The router's own steps: those of its workers, and the wake-up of a request already queued. */
  predicate Own(step: Step) { OfWorker(step) || step.Signal? }

  lemma PcWorks(s: State, pc: Pc, step: Step)
    requires OfWorker(step) && NextPc(s, pc, step).Some? && !s.closed
    ensures var e, pc' := Effect(s, pc, step), NextPc(s, pc, step).value;
      12 * |e.pending| + Rank(pc') + (if e.token then 3 else 0) < 12 * |s.pending| + Rank(pc) + if s.token then 3 else 0
  {
    hide MayKeep;
    hide Stale;
    if step.Take? {
      assert |s.pending.Keys - {step.key}| == |s.pending| - 1;
      assert (s.pending - {step.key}).Keys == s.pending.Keys - {step.key};
    }
  }

  /** Every step of its own brings an open router nearer to rest, so it cannot go on for ever. */
  lemma OwnStepWorks(s: State, step: Step)
    requires Own(step) && !s.closed && Next(s, step).Some?
    ensures Work(Next(s, step).value) < Work(s)
  {
    if OfWorker(step) {
      var pc := s.workers[step.w];
      hide NextPc;
      hide Effect;
      hide Rank;
      EffectFrame(s, pc, step);
      PcWorks(s, pc, step);
      RanksMove(s.workers, step.w, NextPc(s, pc, step).value);
    }
  }

  /** Until it is at rest an open router with a transport can take a step of its own, and one that refuses nothing. */
  lemma RouterGoesOn(s: State) returns (step: Step)
    requires Alive(s) && LockHeld(s) && NoLostWake(s) && !s.closed && s.telegram && s.workers != [] && !Quiet(s)
    ensures Own(step) && Next(s, step).Some? && RefusedBy(s, step) == {}
  {
    if s.signalling {
      step := Step.Signal;
    } else if s.lock.Some? {
      var w := s.lock.value;
      step := if s.workers[w].Holding? then Recheck(w) else Deliver(w);
    } else if SomeoneBusy(s) {
      var w :| 0 <= w < |s.workers| && Busy(s.workers[w]);
      step := BusyStep(s, w);
    } else {
      assert s.workers[0].Waiting?;
      step := Wake(0);
    }
  }

  lemma BusyStep(s: State, w: nat) returns (step: Step)
    requires Alive(s) && LockHeld(s) && s.telegram && s.lock.None? && w < |s.workers| && Busy(s.workers[w])
    ensures Own(step) && Next(s, step).Some? && RefusedBy(s, step) == {}
  {
    match s.workers[w] {
      case Draining =>
        if s.pending == map[] {
          step := Idle(w);
        } else {
          assert s.pending.Keys != {};
          var key :| key in s.pending;
          step := Take(w, key);
        }
      case Checking(_) => step := Check(w);
      case Judging(job) => step := Judge(w, Some(job.chats));
      case Ready(_) => step := LookUp(w);
      case Locking(_) => step := Lock(w);
    }
  }

  lemma ExecuteSnoc(s: State, steps: seq<Step>, step: Step)
    requires Execute(s, steps).Some?
    ensures Execute(s, steps + [step]) == Next(Execute(s, steps).value, step)
  {
    assert (steps + [step])[..|steps|] == steps;
  }

  lemma ObserveSnoc(workers: nat, script: seq<Call>, steps: seq<Step>, step: Step)
    requires Execute(Init(workers, script), steps).Some? && Execute(Init(workers, script), steps + [step]).Some?
    requires Own(step) && RefusedBy(Execute(Init(workers, script), steps).value, step) == {}
    ensures Requests(workers, script, steps + [step]) == Requests(workers, script, steps)
    ensures Refusals(workers, script, steps + [step]) == Refusals(workers, script, steps)
  {
    assert (steps + [step])[..|steps|] == steps;
  }

  lemma OwnStepFrame(s: State, step: Step)
    requires Own(step) && Next(s, step).Some?
    ensures var s' := Next(s, step).value; s'.closed == s.closed && s'.telegram == s.telegram && s'.invalidated == s.invalidated
  {
    if OfWorker(step) {
      EffectFrame(s, s.workers[step.w], step);
      TelegramStays(s, s.workers[step.w], step);
      hide NextPc;
      hide Effect;
    }
  }

  lemma TelegramStays(s: State, pc: Pc, step: Step)
    requires OfWorker(step) && NextPc(s, pc, step).Some?
    ensures Effect(s, pc, step).telegram == s.telegram
  {
    hide MayKeep;
    hide Stale;
  }

  /**
   From every reached state an open router with a transport and workers can come to rest by itself, without
   refusing anything more.
   */
  lemma {:induction false} RouterComesToRest(workers: nat, script: seq<Call>, steps: seq<Step>) returns (more: seq<Step>)
    requires GoodScript(script) && workers > 0 && Execute(Init(workers, script), steps).Some?
    requires var s := Execute(Init(workers, script), steps).value; !s.closed && s.telegram
    ensures Execute(Init(workers, script), steps + more).Some? && (forall step :: step in more ==> Own(step))
    ensures var s, s' := Execute(Init(workers, script), steps).value, Execute(Init(workers, script), steps + more).value;
      Quiet(s') && s'.invalidated == s.invalidated
    ensures Requests(workers, script, steps + more) == Requests(workers, script, steps)
    ensures Refusals(workers, script, steps + more) == Refusals(workers, script, steps)
    decreases Work(Execute(Init(workers, script), steps).value)
  {
    hide Next;
    hide Init;
    hide GoodScript;
    hide Alive;
    hide LockHeld;
    hide Quiet;
    hide NoLostWake;
    hide Requested;
    hide RefusedBy;
    hide Work;
    var s := Execute(Init(workers, script), steps).value;
    if Quiet(s) {
      more := [];
      assert steps + more == steps;
    } else {
      ReachedStates(workers, script, steps);
      ReachedAlive(workers, script, steps);
      assert LockHeld(s) by { InvLock(s); }
      var step := RouterGoesOn(s);
      ExecuteSnoc(Init(workers, script), steps, step);
      ObserveSnoc(workers, script, steps, step);
      OwnStepWorks(s, step);
      OwnStepFrame(s, step);
      var rest := RouterComesToRest(workers, script, steps + [step]);
      more := [step] + rest;
      assert steps + [step] + rest == steps + more;
    }
  }

  lemma InvLock(s: State)
    requires Inv(s)
    ensures LockHeld(s)
  {
  }

  /** So every message asked for, unless refused or called off so far, can still be told. */
  lemma EveryRequestCanBeTold(workers: nat, script: seq<Call>, steps: seq<Step>, key: JobKey) returns (more: seq<Step>)
    requires GoodScript(script) && workers > 0 && Execute(Init(workers, script), steps).Some?
    requires var s := Execute(Init(workers, script), steps).value; !s.closed && s.telegram
    requires key in Requests(workers, script, steps) && Requests(workers, script, steps)[key] !in Refusals(workers, script, steps)
    requires key.kind != CloseJob ==> key.id !in Execute(Init(workers, script), steps).value.invalidated
    ensures Execute(Init(workers, script), steps + more).Some? && (forall step :: step in more ==> Own(step))
    ensures WasSent(Execute(Init(workers, script), steps + more).value.trace, Requests(workers, script, steps)[key])
  {
    hide Execute;
    hide Init;
    hide GoodScript;
    hide Requests;
    hide Refusals;
    more := RouterComesToRest(workers, script, steps);
    QuietMeansTold(workers, script, steps + more);
    ReachedStates(workers, script, steps + more);
    var s := Execute(Init(workers, script), steps + more).value;
    var job := Requests(workers, script, steps)[key];
    assert Settled(s, Refusals(workers, script, steps), key, job);
    if key.kind == CloseJob {
      var i :| 0 <= i < |s.trace| && s.trace[i] == MarkOf(job);
      assert IsMessage(s.trace[i], job);
    } else {
      assert Marks(s);
    }
  }
}

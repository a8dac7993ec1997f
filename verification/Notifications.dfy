/**
 The notification router: who is told about a signal, the queue of pending messages, and the
 per-user thresholds of update messages.
 */
module Notifications {
  import opened Wrappers
  import opened Numbers
  import opened Domain
  import opened Volume
  import opened Search

  datatype Kind = OpenJob | UpdateJob | CloseJob

  /** The key under which a job is queued: the signal and the kind of message. */
  datatype JobKey = JobKey(id: nat, kind: Kind)

  datatype Job = Job(key: JobKey, chats: seq<int>, signal: Signal, revalidate: bool)

  type Pending = map<JobKey, Job>

  function JobFor(s: Signal, kind: Kind, chats: seq<int>): Job {
    Job(JobKey(s.id, kind), chats, s, kind != CloseJob)
  }

  // ---- Who is told ----

  function MinFundingTime(s: Signal): Time {
    if s.buyNextFunding != 0 && (s.sellNextFunding == 0 || !(s.sellNextFunding < s.buyNextFunding)) then s.buyNextFunding
    else s.sellNextFunding
  }

  predicate FundingAllowed(s: Signal, u: User, now: Time) {
    if s.buyMarket != Futures && s.sellMarket != Futures then true
    else MinFundingTime(s) != 0 && MinFundingTime(s) - now >= u.minFundingMinutes * MINUTE
  }

  /** The gates every opening or update message passes for one user. */
  predicate Wants(s: Signal, u: User, now: Time, volume: Option<VolumeData>) {
    s.peakSpread >= u.minSpread && FundingAllowed(s, u, now) && RouterVolume(volume, s, u) >= u.minVolume
  }

  /** `ids` lists exactly the users of the map that satisfy the choice, each once. */
  ghost predicate Lists(ids: seq<int>, users: map<int, User>, choice: set<int>) {
    && (forall id :: id in ids <==> id in users && id in choice)
    && (forall i, j :: 0 <= i < j < |ids| ==> ids[i] != ids[j])
  }

  /** The users among the chats who want the signal. */
  function StillWanting(s: Signal, chats: seq<int>, users: map<int, User>, now: Time, volume: Option<VolumeData>): (r: set<int>)
    ensures forall id :: id in r ==> id in users && id in chats
  {
    set id | id in users && id in chats && Wants(s, users[id], now, volume)
  }

  /**
   What the second look at a job decides: closes pass; an opening or update goes to exactly those of its chats whose
   users want the signal as it is now, and is given up when the route or all of them are gone.
   */
  ghost predicate Judged(job: Job, current: Option<Signal>, hardMin: real, users: map<int, User>, now: Time,
                         volume: Option<VolumeData>, kept: Option<seq<int>>)
  {
    if !job.revalidate then kept == Some(job.chats)
    else if current.None? || current.value.peakSpread < hardMin then kept.None?
    else
      var wanted := StillWanting(current.value, job.chats, users, now, volume);
      if exists id :: id in wanted then kept.Some? && Lists(kept.value, users, wanted) else kept.None?
  }

  // ---- Update thresholds ----

  datatype UpdateKey = UpdateKey(id: nat, chat: int)

  function LastThreshold(last: map<UpdateKey, real>, key: UpdateKey): real {
    if key in last then last[key] else 0.0
  }

  /** Whole steps between the opening spread and the peak. */
  function Steps(initial: real, peak: real, step: real): int
    requires step > 0.0
  {
    IntPart(Div(peak - initial, step))
  }

  function ThresholdOf(initial: real, peak: real, step: real): real
    requires step > 0.0
  {
    initial + step * Steps(initial, peak, step) as real
  }

  /** The user crosses a threshold above the last one announced. */
  predicate Crosses(s: Signal, u: User, last: real) {
    u.updateStep > 0.0 && Steps(s.initialSpread, s.peakSpread, u.updateStep) >= 1
    && ThresholdOf(s.initialSpread, s.peakSpread, u.updateStep) > last
  }

  predicate UpdateDue(s: Signal, u: User, now: Time, volume: Option<VolumeData>, last: map<UpdateKey, real>) {
    Wants(s, u, now, volume) && Crosses(s, u, LastThreshold(last, UpdateKey(s.id, u.chatID)))
  }

  /** The thresholds after the users in `due` were told. */
  function Raised(s: Signal, users: map<int, User>, due: set<int>, last: map<UpdateKey, real>): map<UpdateKey, real>
    requires forall id :: id in due ==> id in users && users[id].updateStep > 0.0
  {
    map key | key in last.Keys + (set id | id in due :: UpdateKey(s.id, id)) ::
      if key.id == s.id && key.chat in due then ThresholdOf(s.initialSpread, s.peakSpread, users[key.chat].updateStep)
      else LastThreshold(last, key)
  }

  /** The thresholds after those of one signal were forgotten. */
  function Cleared(last: map<UpdateKey, real>, id: nat): map<UpdateKey, real> {
    if id == 0 then last else map k | k in last && k.id != id :: last[k]
  }

  function RaisedAt(s: Signal, users: map<int, User>, due: set<int>, last: map<UpdateKey, real>, key: UpdateKey): Option<real>
    requires forall id :: id in due ==> id in users && users[id].updateStep > 0.0
  {
    if key.id == s.id && key.chat in due then Some(ThresholdOf(s.initialSpread, s.peakSpread, users[key.chat].updateStep))
    else Get(last, key)
  }

  lemma RaisedIsPointwise(s: Signal, users: map<int, User>, due: set<int>, last: map<UpdateKey, real>, key: UpdateKey)
    requires forall id :: id in due ==> id in users && users[id].updateStep > 0.0
    ensures Get(Raised(s, users, due, last), key) == RaisedAt(s, users, due, last, key)
  {
    hide ThresholdOf;
    if key.id == s.id && key.chat in due {
      assert key == UpdateKey(s.id, key.chat);
    }
  }

  // ---- The queue ----

  predicate Refused(job: Job, closed: bool) { job.chats == [] || closed }

  class NotificationRouter {
    var pending: map<JobKey, Job>
    var wake: bool
    var closed: bool
    var invalidated: set<nat>
    var lastUpdate: map<UpdateKey, real>

    constructor ()
      ensures pending == map[] && !wake && !closed && invalidated == {} && lastUpdate == map[]
    {
      pending, wake, closed, invalidated, lastUpdate := map[], false, false, {}, map[];
    }

    /** A job replaces the pending job of the same key, chats included. */
    method Enqueue(job: Job) returns (ok: bool)
      modifies this`pending, this`wake
      ensures ok <==> !Refused(job, closed)
      ensures pending == if ok then old(pending)[job.key := job] else old(pending)
      ensures wake == (old(wake) || ok)
    {
      if job.chats == [] {
        return false;
      }
      if closed {
        return false;
      }
      pending := pending[job.key := job];
      wake := true;
      return true;
    }

    method TakePending() returns (job: Option<Job>)
      modifies this`pending
      ensures job.None? <==> old(pending) == map[]
      ensures job.None? ==> pending == old(pending)
      ensures job.Some? ==> exists key :: key in old(pending) && old(pending)[key] == job.value && pending == old(pending) - {key}
    {
      if pending.Keys == {} {
        return None;
      }
      var key := Pick(pending.Keys);
      job := Some(pending[key]);
      pending := pending - {key};
    }

    method InvalidateSignal(id: nat)
      modifies this`invalidated
      ensures invalidated == if id == 0 then old(invalidated) else old(invalidated) + {id}
    {
      if id == 0 {
        return;
      }
      invalidated := invalidated + {id};
    }

    method DropPending(key: JobKey)
      modifies this`pending
      ensures pending == old(pending) - {key}
    {
      pending := pending - {key};
    }

    method ClearSignalUpdates(id: nat)
      modifies this`lastUpdate
      ensures lastUpdate == Cleared(old(lastUpdate), id)
    {
      if id == 0 {
        return;
      }
      var todo := lastUpdate.Keys;
      while todo != {}
        invariant todo <= old(lastUpdate).Keys
        invariant forall k :: Get(lastUpdate, k) == if k in todo || k.id != id then Get(old(lastUpdate), k) else None
      {
        var k := Pick(todo);
        todo := todo - {k};
        if k.id == id {
          lastUpdate := lastUpdate - {k};
        }
      }
      SameMap(lastUpdate, Cleared(old(lastUpdate), id));
    }

    /** The chats told of an opening: every user whose gates the signal passes. */
    method OpenTargets(s: Signal, users: map<int, User>, now: Time, volume: Option<VolumeData>) returns (targets: seq<int>)
      ensures Lists(targets, users, set id | id in users && Wants(s, users[id], now, volume))
    {
      hide Wants;
      targets := [];
      var todo := users.Keys;
      while todo != {}
        invariant todo <= users.Keys
        invariant forall id :: id in targets <==> id in users && id !in todo && Wants(s, users[id], now, volume)
        invariant forall i, j :: 0 <= i < j < |targets| ==> targets[i] != targets[j]
      {
        var id := Pick(todo);
        todo := todo - {id};
        if Wants(s, users[id], now, volume) {
          targets := targets + [id];
        }
      }
    }

    /** Of the chats of a job those whose users still want the signal, as it is now. */
    method CurrentEligibleChatIDs(s: Signal, chats: seq<int>, users: map<int, User>, now: Time, volume: Option<VolumeData>)
      returns (out: seq<int>)
      ensures Lists(out, users, StillWanting(s, chats, users, now, volume))
    {
      hide Wants;
      out := [];
      var todo := users.Keys;
      while todo != {}
        invariant todo <= users.Keys
        invariant forall id :: id in out <==> id in users && id !in todo && id in chats && Wants(s, users[id], now, volume)
        invariant forall i, j :: 0 <= i < j < |out| ==> out[i] != out[j]
      {
        var id := Pick(todo);
        todo := todo - {id};
        if id in chats && Wants(s, users[id], now, volume) {
          out := out + [id];
        }
      }
    }

    /** The second look at an opening or update before it is sent: `current` is what the aggregator still finds. */
    method Rejudge(job: Job, current: Option<Signal>, hardMin: real, users: map<int, User>, now: Time, volume: Option<VolumeData>)
      returns (kept: Option<seq<int>>)
      ensures Judged(job, current, hardMin, users, now, volume, kept)
    {
      hide Wants;
      if !job.revalidate {
        return Some(job.chats);
      }
      if current.None? {
        return None;
      }
      if current.value.peakSpread < hardMin {
        return None;
      }
      var chats := CurrentEligibleChatIDs(current.value, job.chats, users, now, volume);
      if chats == [] {
        assert Lists(chats, users, StillWanting(current.value, job.chats, users, now, volume));
        return None;
      }
      ghost var wanted := StillWanting(current.value, job.chats, users, now, volume);
      assert Lists(chats, users, wanted);
      ghost var first := chats[0];
      assert first in chats && first in users && first in wanted;
      return Some(chats);
    }

    /** Openings go to the users that want them, closes to the chats told of the opening. */
    method ProcessSignal(s: Signal, opening: bool, users: map<int, User>, now: Time, volume: Option<VolumeData>)
      returns (targets: seq<int>)
      modifies this`pending, this`wake
      ensures closed ==> targets == [] && pending == old(pending) && wake == old(wake)
      ensures !closed && opening ==> Lists(targets, users, set id | id in users && Wants(s, users[id], now, volume))
      ensures !closed && !opening ==> targets == s.notified
      ensures !closed && targets == [] ==> pending == old(pending)
      ensures !closed && targets != [] ==>
        pending == old(pending)[JobKey(s.id, if opening then OpenJob else CloseJob)
                                := JobFor(s, if opening then OpenJob else CloseJob, targets)]
    {
      hide Wants;
      if closed {
        return [];
      }
      if opening {
        targets := OpenTargets(s, users, now, volume);
      } else {
        targets := s.notified;
      }
      if targets == [] {
        return;
      }
      var _ := Enqueue(JobFor(s, if opening then OpenJob else CloseJob, targets));
    }

    /** One message per user and peak: to the users whose next threshold the peak has reached. */
    method ProcessSignalUpdate(s: Signal, users: map<int, User>, now: Time, volume: Option<VolumeData>) returns (targets: seq<int>)
      requires forall id :: id in users ==> users[id].chatID == id
      modifies this`pending, this`wake, this`lastUpdate
      ensures closed || !s.isActive ==> targets == [] && pending == old(pending) && lastUpdate == old(lastUpdate)
      ensures !closed && s.isActive ==>
        var due := set id | id in users && UpdateDue(s, users[id], now, volume, old(lastUpdate));
        && Lists(targets, users, due)
        && lastUpdate == Raised(s, users, due, old(lastUpdate))
        && pending == if targets == [] then old(pending)
                      else old(pending)[JobKey(s.id, UpdateJob) := JobFor(s, UpdateJob, targets)]
    {
      hide Wants;
      hide Crosses;
      hide ThresholdOf;
      hide Raised;
      if closed || !s.isActive {
        return [];
      }
      targets := [];
      ghost var last0 := lastUpdate;
      ghost var due := set id | id in users && UpdateDue(s, users[id], now, volume, last0);
      DueHasStep(s, users, now, volume, last0);
      var todo := users.Keys;
      while todo != {}
        invariant todo <= users.Keys && pending == old(pending)
        invariant forall id :: id in targets <==> id in due && id !in todo
        invariant forall i, j :: 0 <= i < j < |targets| ==> targets[i] != targets[j]
        invariant forall k :: Get(lastUpdate, k) == RaisedAt(s, users, due - todo, last0, k)
      {
        var id := Pick(todo);
        var key := UpdateKey(s.id, id);
        ghost var told, before := due - todo, lastUpdate;
        assert Get(before, key) == RaisedAt(s, users, told, last0, key) == Get(last0, key);
        assert id in due <==> UpdateDue(s, users[id], now, volume, before);
        if UpdateDue(s, users[id], now, volume, lastUpdate) {
          lastUpdate := lastUpdate[key := ThresholdOf(s.initialSpread, s.peakSpread, users[id].updateStep)];
          targets := targets + [id];
        }
        todo := todo - {id};
        forall k ensures Get(lastUpdate, k) == RaisedAt(s, users, due - todo, last0, k) {
          assert Get(before, k) == RaisedAt(s, users, told, last0, k);
          if k == key {
            assert k.chat in due - todo <==> id in due;
          } else {
            assert Get(lastUpdate, k) == Get(before, k);
            if k.id == s.id {
              assert k.chat != id;
              assert k.chat in due - todo <==> k.chat in told;
            }
          }
        }
      }
      assert due - todo == due;
      forall k ensures Get(lastUpdate, k) == Get(Raised(s, users, due, last0), k) {
        RaisedIsPointwise(s, users, due, last0, k);
      }
      SameMap(lastUpdate, Raised(s, users, due, last0));
      if targets != [] {
        var _ := Enqueue(JobFor(s, UpdateJob, targets));
      }
    }
  }

  lemma DueHasStep(s: Signal, users: map<int, User>, now: Time, volume: Option<VolumeData>, last: map<UpdateKey, real>)
    ensures forall id :: id in users && UpdateDue(s, users[id], now, volume, last) ==> users[id].updateStep > 0.0
  {
    hide Wants;
  }
}

/** How often one user is sent update messages over the life of one signal. */
module UpdatePolicy {
  import opened Numbers
  import opened Wrappers
  import opened Domain
  import opened Volume
  import opened Notifications
  import opened Tracking

  /** A new peak as one user sees it: the peak, the user's step at that time, and whether the other gates are open. */
  datatype Sight = Sight(peak: real, step: real, gates: bool)

  /** The threshold announced, if one is. */
  function Announce(initial: real, last: real, o: Sight): Option<real> {
    if o.gates && o.step > 0.0 && Steps(initial, o.peak, o.step) >= 1 && ThresholdOf(initial, o.peak, o.step) > last
    then Some(ThresholdOf(initial, o.peak, o.step)) else None
  }

  function LastOf(issued: seq<real>): real { if issued == [] then 0.0 else issued[|issued| - 1] }

  /** The thresholds announced over a sequence of peaks. */
  function Issued(initial: real, sights: seq<Sight>): seq<real> {
    if sights == [] then []
    else
      var before := Issued(initial, sights[..|sights| - 1]);
      var next := Announce(initial, LastOf(before), sights[|sights| - 1]);
      if next.Some? then before + [next.value] else before
  }

  /** The router's decision for a user is this announcement, with the user's other gates as `gates`. */
  lemma DueIsAnnounced(s: Signal, u: User, now: Time, volume: Option<VolumeData>, last: map<UpdateKey, real>)
    ensures UpdateDue(s, u, now, volume, last)
       <==> Announce(s.initialSpread, LastThreshold(last, UpdateKey(s.id, u.chatID)),
                     Sight(s.peakSpread, u.updateStep, Wants(s, u, now, volume))).Some?
  {
    hide Wants;
  }

  predicate Rising(t: seq<real>) {
    (forall i :: 0 <= i < |t| ==> t[i] > 0.0) && forall i, j :: 0 <= i < j < |t| ==> t[i] < t[j]
  }

  lemma RisingAppend(t: seq<real>, x: real)
    requires Rising(t) && x > LastOf(t)
    ensures Rising(t + [x])
  {
    forall i | 0 <= i < |t| ensures 0.0 < t[i] < x {
      assert t[i] <= LastOf(t);
    }
  }

  /** Whatever the user does with the step, each announced threshold is above the one before. */
  lemma {:induction false} ThresholdsRise(initial: real, sights: seq<Sight>)
    ensures Rising(Issued(initial, sights))
  {
    hide ThresholdOf;
    hide Steps;
    hide Rising;
    if sights == [] {
      assert Rising([]) by { EmptyRises(); }
    } else {
      var before := Issued(initial, sights[..|sights| - 1]);
      ThresholdsRise(initial, sights[..|sights| - 1]);
      var next := Announce(initial, LastOf(before), sights[|sights| - 1]);
      if next.Some? {
        RisingAppend(before, next.value);
      }
    }
  }

  lemma EmptyRises()
    ensures Rising([])
  {
  }

  // ---- Whole steps, with the rounding of division ----

  lemma FloorBounds(x: real)
    ensures x.Floor as real <= x < x.Floor as real + 1.0
  {
  }

  /** Rounded to sixteen digits and cut: the next whole number is reached only inside the last half unit. */
  function Whole(q: real): int {
    if q - q.Floor as real < 1.0 - 0.5 / SCALE then q.Floor else q.Floor + 1
  }

  lemma WholeSteps(q: real)
    requires q >= 0.0
    ensures IntPart(Round16(q)) == Whole(q)
  {
    var n, x := q.Floor, q * SCALE;
    var r := RoundHalfAway(x);
    FloorBounds(q);
    FloorBounds(x + 0.5);
    assert r as real <= x + 0.5 < r as real + 1.0;
    var m := 10_000_000_000_000_000;
    assert SCALE == m as real;
    assert n as real * SCALE == (n * m) as real;
    assert (n + 1) as real * SCALE == ((n + 1) * m) as real;
    assert r >= n * m;
    var whole := Round16(q);
    assert whole * SCALE == r as real;
    if q - n as real < 1.0 - 0.5 / SCALE {
      assert x < ((n + 1) * m) as real - 0.5;
      assert r < (n + 1) * m;
      assert n as real <= whole < (n + 1) as real;
    } else {
      assert x >= ((n + 1) * m) as real - 0.5;
      assert r >= (n + 1) * m;
      assert x < ((n + 1) * m) as real;
      assert r <= (n + 1) * m;
      assert whole == (n + 1) as real;
    }
  }

  lemma WholeMonotone(p: real, q: real)
    requires 0.0 <= p <= q
    ensures 0 <= Whole(p) <= Whole(q)
  {
    FloorBounds(p);
    FloorBounds(q);
  }

  /** How many whole steps really fit, in exact arithmetic. */
  function ExactSteps(initial: real, peak: real, step: real): int
    requires step > 0.0
  {
    ((peak - initial) / step).Floor
  }

  /** The part of a step left over is not within rounding distance of a whole one. */
  predicate ClearOfRounding(initial: real, peak: real, step: real)
    requires step > 0.0
  {
    var q := (peak - initial) / step;
    q - q.Floor as real < 1.0 - 0.5 / SCALE
  }

  lemma StepsAreWhole(initial: real, peak: real, step: real)
    requires step > 0.0 && initial <= peak
    ensures Steps(initial, peak, step) == Whole((peak - initial) / step)
  {
    QuotientSign(peak - initial, step);
    WholeSteps((peak - initial) / step);
  }

  lemma StepsAreExact(initial: real, peak: real, step: real)
    requires step > 0.0 && initial <= peak
    ensures Steps(initial, peak, step) == ExactSteps(initial, peak, step) + (if ClearOfRounding(initial, peak, step) then 0 else 1)
  {
    hide Steps;
    StepsAreWhole(initial, peak, step);
  }

  /**
   An announced threshold lies above the opening spread.  It is at most the peak exactly when
   the division does not round up to a step that is not yet reached.
   */
  lemma ThresholdAtMostPeak(initial: real, peak: real, step: real)
    requires step > 0.0 && initial <= peak && Steps(initial, peak, step) >= 1
    ensures initial < ThresholdOf(initial, peak, step)
    ensures ThresholdOf(initial, peak, step) <= peak <==> ClearOfRounding(initial, peak, step)
  {
    hide Steps;
    StepsAreExact(initial, peak, step);
    var q, n := (peak - initial) / step, Steps(initial, peak, step);
    FloorBounds(q);
    Quotient(peak - initial, step);
    Shifted(initial, step * n as real, step * q, peak);
    Scaled(step, n as real, q);
    assert initial + step * n as real <= peak <==> n as real <= q;
    if ClearOfRounding(initial, peak, step) {
      assert n == q.Floor;
    } else {
      assert n == q.Floor + 1;
    }
    Scaled(step, 1.0, n as real);
  }

  lemma Shifted(initial: real, x: real, y: real, peak: real)
    requires y == peak - initial
    ensures initial + x <= peak <==> x <= y
  {
  }

  lemma Quotient(a: real, b: real)
    requires b > 0.0
    ensures b * (a / b) == a
  {
  }

  lemma Scaled(step: real, a: real, b: real)
    requires step > 0.0
    ensures a <= b <==> step * a <= step * b
  {
    if a <= b {
      assert step * (b - a) >= 0.0;
    } else {
      assert step * (a - b) > 0.0;
    }
  }

  // ---- Counting the messages ----

  predicate FixedStep(sights: seq<Sight>, step: real) { forall i :: 0 <= i < |sights| ==> sights[i].step == step }

  /** A peak never falls, and never lies below the opening spread. */
  predicate RisingPeaks(initial: real, sights: seq<Sight>) {
    && (forall i :: 0 <= i < |sights| ==> initial <= sights[i].peak)
    && (forall i, j :: 0 <= i < j < |sights| ==> sights[i].peak <= sights[j].peak)
  }

  lemma StepsMonotone(initial: real, a: real, b: real, step: real)
    requires step > 0.0 && initial <= a <= b
    ensures 0 <= Steps(initial, a, step) <= Steps(initial, b, step)
  {
    hide Steps;
    hide Whole;
    StepsAreWhole(initial, a, step);
    StepsAreWhole(initial, b, step);
    var p, q := (a - initial) / step, (b - initial) / step;
    Quotient(a - initial, step);
    Quotient(b - initial, step);
    Scaled(step, p, q);
    Scaled(step, 0.0, p);
    WholeMonotone(p, q);
  }

  /** At most n messages, the last of them for the n-th step. */
  predicate Counted(t: seq<real>, initial: real, step: real, n: nat) {
    |t| <= n && LastOf(t) == initial + step * n as real
  }

  /** With a fixed step, k messages mean that the last threshold is at least k steps above the opening. */
  lemma {:induction false} IssuedCount(initial: real, sights: seq<Sight>, step: real) returns (n: nat)
    requires initial >= 0.0 && step > 0.0 && FixedStep(sights, step) && RisingPeaks(initial, sights) && sights != []
    ensures n <= Steps(initial, sights[|sights| - 1].peak, step)
    ensures Issued(initial, sights) != [] ==> Counted(Issued(initial, sights), initial, step, n)
  {
    hide Steps;
    hide Announce;
    hide Counted;
    var front, o := sights[..|sights| - 1], sights[|sights| - 1];
    StepsMonotone(initial, o.peak, o.peak, step);
    var now := Steps(initial, o.peak, step);
    var before := Issued(initial, front);
    n := now;
    if front == [] {
      CountOne(initial, before, 0, o, step);
    } else {
      var k := IssuedCount(initial, front, step);
      StepsMonotone(initial, front[|front| - 1].peak, o.peak, step);
      CountOne(initial, before, k, o, step);
      n := if Announce(initial, LastOf(before), o).Some? then now else k;
    }
  }

  /** One announcement more counts to the steps of its peak. */
  lemma CountOne(initial: real, before: seq<real>, k: nat, o: Sight, step: real)
    requires initial >= 0.0 && step > 0.0 && o.step == step && initial <= o.peak && 0 <= Steps(initial, o.peak, step)
    requires before != [] ==> Counted(before, initial, step, k)
    ensures var next := Announce(initial, LastOf(before), o);
      next.Some? ==> Counted(before + [next.value], initial, step, Steps(initial, o.peak, step))
  {
    hide Steps;
    var now := Steps(initial, o.peak, step);
    if Announce(initial, LastOf(before), o).Some? && before != [] {
      assert initial + step * now as real > initial + step * k as real;
      NextCount(initial, before, k, now, step);
    }
  }

  lemma NextCount(initial: real, before: seq<real>, k: nat, n: int, step: real)
    requires step > 0.0 && |before| <= k && initial + step * n as real > initial + step * k as real
    ensures n >= |before| + 1
  {
    Scaled(step, n as real, k as real);
  }

  /**
   With a fixed step at most as many messages are sent as whole steps were counted, however far
   a single peak jumps; where rounding stays clear that is floor((peak - initial) / step).
   */
  lemma UpdatesBounded(initial: real, sights: seq<Sight>, step: real)
    requires initial >= 0.0 && step > 0.0 && FixedStep(sights, step) && RisingPeaks(initial, sights) && sights != []
    ensures var peak := sights[|sights| - 1].peak;
      && |Issued(initial, sights)| <= Steps(initial, peak, step)
      && |Issued(initial, sights)| <= ExactSteps(initial, peak, step) + (if ClearOfRounding(initial, peak, step) then 0 else 1)
  {
    hide Steps;
    var peak := sights[|sights| - 1].peak;
    var _ := IssuedCount(initial, sights, step);
    StepsAreExact(initial, peak, step);
  }

  /**
   With a fixed step a user whose other gates are open at the newest peak has been told of its last whole step: nothing
   is withheld, and where rounding stays clear the peak is less than a step above what he was told.
   */
  lemma NeverAStepBehind(initial: real, sights: seq<Sight>, step: real)
    requires initial >= 0.0 && step > 0.0 && FixedStep(sights, step) && RisingPeaks(initial, sights) && sights != []
    requires sights[|sights| - 1].gates
    ensures var peak, told := sights[|sights| - 1].peak, Issued(initial, sights);
      && (if Steps(initial, peak, step) >= 1 then told != [] && LastOf(told) == ThresholdOf(initial, peak, step) else told == [])
      && (ClearOfRounding(initial, peak, step) ==>
            if peak - initial >= step then told != [] && peak - step < LastOf(told) <= peak else told == [])
  {
    hide Steps;
    hide Announce;
    hide ThresholdOf;
    hide ClearOfRounding;
    hide Counted;
    var front, o := sights[..|sights| - 1], sights[|sights| - 1];
    var before := Issued(initial, front);
    StepsMonotone(initial, o.peak, o.peak, step);
    var k: nat := 0;
    if front != [] {
      k := IssuedCount(initial, front, step);
      StepsMonotone(initial, front[|front| - 1].peak, o.peak, step);
    }
    CatchesUp(initial, before, k, o, step);
    assert Issued(initial, sights) == AfterSight(before, Announce(initial, LastOf(before), o));
    if ClearOfRounding(initial, o.peak, step) {
      ClearMeansFloor(initial, o.peak, step);
    }
  }

  function AfterSight(before: seq<real>, next: Option<real>): seq<real> { if next.Some? then before + [next.value] else before }

  lemma CatchesUp(initial: real, before: seq<real>, k: nat, o: Sight, step: real)
    requires initial >= 0.0 && step > 0.0 && o.step == step && o.gates && 0 <= k <= Steps(initial, o.peak, step)
    requires before != [] ==> Counted(before, initial, step, k)
    ensures var told := AfterSight(before, Announce(initial, LastOf(before), o));
      if Steps(initial, o.peak, step) >= 1 then told != [] && LastOf(told) == ThresholdOf(initial, o.peak, step) else told == []
  {
    hide Steps;
    var n := Steps(initial, o.peak, step);
    Scaled(step, k as real, n as real);
    Scaled(step, 1.0, n as real);
  }

  /** Away from rounding the last whole step is less than a step below the peak. */
  lemma ClearMeansFloor(initial: real, peak: real, step: real)
    requires step > 0.0 && initial <= peak && ClearOfRounding(initial, peak, step)
    ensures Steps(initial, peak, step) >= 1 ==> peak - step < ThresholdOf(initial, peak, step) <= peak
    ensures Steps(initial, peak, step) >= 1 <==> peak - initial >= step
  {
    hide Steps;
    StepsAreExact(initial, peak, step);
    var q, n := (peak - initial) / step, Steps(initial, peak, step);
    FloorBounds(q);
    Quotient(peak - initial, step);
    assert n == q.Floor && n as real <= q < n as real + 1.0;
    Scaled(step, 1.0, q);
    LessThanAStep(initial, peak, step, n as real, q);
    if n >= 1 {
      ThresholdAtMostPeak(initial, peak, step);
    }
  }

  lemma LessThanAStep(initial: real, peak: real, step: real, n: real, q: real)
    requires step > 0.0 && q < n + 1.0 && step * q == peak - initial
    ensures peak - step < initial + step * n
  {
    var d := n + 1.0 - q;
    assert d > 0.0 && step * d > 0.0;
    assert step * d == step * n + step - step * q;
  }

  // ---- The router's ledger over many updates ----

  /** One call of the router's update processing. */
  datatype Round = Round(signal: Signal, users: map<int, User>, now: Time, volume: Option<VolumeData>)

  /** What touches the ledger: an update round, or the clearing of a signal's thresholds. */
  datatype Entry = Raise(round: Round) | Forget(id: nat)

  predicate About(e: Entry, id: nat) { e.Raise? && e.round.signal.id == id }

  predicate Keyed(entries: seq<Entry>) { forall e :: e in entries && e.Raise? ==> KeyedRound(e.round) }

  predicate KeyedRound(r: Round) { forall id :: id in r.users ==> r.users[id].chatID == id }

  predicate SameOpening(entries: seq<Entry>, id: nat, initial: real) {
    forall e :: e in entries && About(e, id) ==> e.round.signal.initialSpread == initial
  }

  /** Once the signal's thresholds are cleared it is not updated again. */
  predicate ForgottenLast(entries: seq<Entry>, id: nat) {
    forall i, j :: 0 <= i < j < |entries| && entries[i] == Forget(id) ==> !About(entries[j], id)
  }

  function DueIn(r: Round, last: map<UpdateKey, real>): (due: set<int>)
    ensures forall id :: id in due ==> id in r.users && r.users[id].updateStep > 0.0
  {
    if !r.signal.isActive then {}
    else set id | id in r.users && UpdateDue(r.signal, r.users[id], r.now, r.volume, last)
  }

  function Entered(e: Entry, before: map<UpdateKey, real>): map<UpdateKey, real> {
    match e
    case Raise(r) => Raised(r.signal, r.users, DueIn(r, before), before)
    case Forget(id) => Cleared(before, id)
  }

  /** The ledger after the entries; those of other signals may lie in between. */
  function Ledger(entries: seq<Entry>): map<UpdateKey, real> {
    if entries == [] then map[] else Entered(entries[|entries| - 1], Ledger(entries[..|entries| - 1]))
  }

  /** How often the chat is told of the signal. */
  function Told(entries: seq<Entry>, id: nat, chat: int): nat {
    if entries == [] then 0
    else
      var front, e := entries[..|entries| - 1], entries[|entries| - 1];
      Told(front, id, chat) + if About(e, id) && chat in DueIn(e.round, Ledger(front)) then 1 else 0
  }

  /** A round before the user joined or after the user left has closed gates; `step` stands in for the missing setting. */
  function SightOf(r: Round, chat: int, step: real): Sight {
    if chat in r.users then
      Sight(r.signal.peakSpread, r.users[chat].updateStep,
            r.signal.isActive && Wants(r.signal, r.users[chat], r.now, r.volume))
    else Sight(r.signal.peakSpread, step, false)
  }

  function SightsOf(entries: seq<Entry>, id: nat, chat: int, step: real): seq<Sight> {
    if entries == [] then []
    else
      var front, e := entries[..|entries| - 1], entries[|entries| - 1];
      SightsOf(front, id, chat, step) + if About(e, id) then [SightOf(e.round, chat, step)] else []
  }

  lemma OneRound(r: Round, id: nat, chat: int, step: real, last: map<UpdateKey, real>)
    requires KeyedRound(r)
    ensures var told := Announce(r.signal.initialSpread, LastThreshold(last, UpdateKey(id, chat)), SightOf(r, chat, step));
      && (r.signal.id == id ==> (chat in DueIn(r, last) <==> told.Some?))
      && LastThreshold(Raised(r.signal, r.users, DueIn(r, last), last), UpdateKey(id, chat))
         == if r.signal.id == id && told.Some? then told.value else LastThreshold(last, UpdateKey(id, chat))
  {
    hide Wants;
    hide ThresholdOf;
    hide Steps;
    hide Raised;
    RaisedIsPointwise(r.signal, r.users, DueIn(r, last), last, UpdateKey(id, chat));
    if chat in r.users && r.signal.id == id {
      DueIsAnnounced(r.signal, r.users[chat], r.now, r.volume, last);
    }
  }

  lemma IssuedAppend(initial: real, sights: seq<Sight>, o: Sight)
    ensures var before := Issued(initial, sights);
      var next := Announce(initial, LastOf(before), o);
      Issued(initial, sights + [o]) == before + (if next.Some? then [next.value] else [])
  {
    hide Announce;
    assert (sights + [o])[..|sights + [o]| - 1] == sights;
  }

  /** An entry that is not an update of the signal leaves its threshold, unless it clears it. */
  lemma OtherEntry(e: Entry, id: nat, chat: int, step: real, last: map<UpdateKey, real>)
    requires (e.Raise? ==> KeyedRound(e.round)) && !About(e, id) && e != Forget(id)
    ensures LastThreshold(Entered(e, last), UpdateKey(id, chat)) == LastThreshold(last, UpdateKey(id, chat))
  {
    if e.Raise? {
      hide Raised;
      hide SightOf;
      hide Announce;
      hide DueIn;
      OneRound(e.round, id, chat, step, last);
    }
  }

  /**
   The user is told once per announcement, and until the signal is cleared the ledger holds the
   user's last announced threshold.
   */
  lemma {:induction false} LedgerIsIssued(entries: seq<Entry>, id: nat, chat: int, step: real, initial: real)
    requires Keyed(entries) && SameOpening(entries, id, initial) && ForgottenLast(entries, id)
    ensures var t := Issued(initial, SightsOf(entries, id, chat, step));
      && Told(entries, id, chat) == |t|
      && (Forget(id) !in entries ==> LastThreshold(Ledger(entries), UpdateKey(id, chat)) == LastOf(t))
  {
    hide Entered;
    hide DueIn;
    hide SightOf;
    hide Announce;
    if entries != [] {
      var front, e := entries[..|entries| - 1], entries[|entries| - 1];
      assert entries == front + [e] && e in entries;
      LedgerIsIssued(front, id, chat, step, initial);
      var sights := SightsOf(front, id, chat, step);
      if About(e, id) {
        assert Forget(id) !in front;
        OneRound(e.round, id, chat, step, Ledger(front));
        IssuedAppend(initial, sights, SightOf(e.round, chat, step));
        assert SightsOf(entries, id, chat, step) == sights + [SightOf(e.round, chat, step)];
        RaiseEnters(e, Ledger(front));
      } else {
        assert SightsOf(entries, id, chat, step) == sights;
        if e != Forget(id) {
          OtherEntry(e, id, chat, step, Ledger(front));
        }
      }
    }
  }

  lemma RaiseEnters(e: Entry, before: map<UpdateKey, real>)
    requires e.Raise?
    ensures Entered(e, before) == Raised(e.round.signal, e.round.users, DueIn(e.round, before), before)
  {
  }

  // ---- The peaks the tracker announces ----

  /** Announced peaks of one signal: one opening spread, and every peak above all before it. */
  ghost predicate Climbs(calls: seq<Call>) {
    && (forall i :: 0 <= i < |calls| && calls[i].NotifyUpdate? ==> ClimbsFrom(calls[i].signal))
    && (forall i, j :: 0 <= i < j < |calls| && SameUpdate(calls[i], calls[j]) ==> Above(calls[i].signal, calls[j].signal))
  }

  predicate ClimbsFrom(s: Signal) { s.isActive && 0.0 <= s.initialSpread < s.peakSpread }

  predicate SameUpdate(a: Call, b: Call) { a.NotifyUpdate? && b.NotifyUpdate? && a.signal.id == b.signal.id }

  predicate Above(a: Signal, b: Signal) { a.initialSpread == b.initialSpread && a.peakSpread < b.peakSpread }

  predicate AtLeast(a: Signal, b: Signal) { a.initialSpread == b.initialSpread && a.peakSpread <= b.peakSpread }

  /** Every announced peak of a signal is at most the peak of its newest snapshot. */
  ghost predicate Beneath(calls: seq<Call>, newest: map<nat, Signal>) {
    && (forall id :: id in newest ==> 0.0 <= newest[id].initialSpread <= newest[id].peakSpread)
    && (forall i :: 0 <= i < |calls| && calls[i].NotifyUpdate? ==> BeneathNewest(calls[i].signal, newest))
  }

  predicate BeneathNewest(s: Signal, newest: map<nat, Signal>) { s.id in newest && AtLeast(s, newest[s.id]) }

  /** The newest snapshot of a tracked signal carries its present peak. */
  ghost predicate Tied(active: Active, newest: map<nat, Signal>) {
    forall key :: key in active ==>
      active[key].id in newest && SamePeak(active[key], newest[active[key].id])
  }

  predicate SamePeak(a: Signal, b: Signal) { a.initialSpread == b.initialSpread && a.peakSpread == b.peakSpread }

  /** No update is announced. */
  lemma ClimbQuietly(calls: seq<Call>, more: seq<Call>)
    requires Climbs(calls) && forall c :: c in more ==> !c.NotifyUpdate?
    ensures Climbs(calls + more)
  {
    var all := calls + more;
    assert forall i :: |calls| <= i < |all| ==> all[i] in more;
    assert forall i :: 0 <= i < |calls| ==> all[i] == calls[i];
  }

  function NewestAfter(newest: map<nat, Signal>, more: seq<Call>): map<nat, Signal> {
    if more != [] && more[0].Persist? then newest[more[0].signal.id := more[0].signal] else newest
  }

  /** A newest snapshot keeps its opening spread and never lowers its peak, or the signal is new. */
  predicate Grown(newest: map<nat, Signal>, after: map<nat, Signal>, id: nat, newId: nat) {
    id in after ==>
      || (id in newest && AtLeast(newest[id], after[id]))
      || (id == newId && 0.0 <= after[id].initialSpread <= after[id].peakSpread)
  }

  ghost predicate AllGrown(newest: map<nat, Signal>, after: map<nat, Signal>, newId: nat) {
    forall id :: Grown(newest, after, id, newId)
  }

  predicate Announces(newest: map<nat, Signal>, more: seq<Call>) {
    |more| == 2 && more[0].Persist? && more[1].NotifyUpdate? && more[1].signal == more[0].signal
    && more[1].signal.id in newest && more[1].signal.isActive && Above(newest[more[1].signal.id], more[1].signal)
  }

  /** One event announces at most one update, of a signal whose peak it raised. */
  lemma HandleGrows(active: Active, newest: map<nat, Signal>, n: nat, e: SpreadEvent, chats: seq<int>, closeAt: real)
    requires Accounted(active, newest, n) && Tied(active, newest)
    ensures var (active', more) := Handle(active, e, n + 1, chats, closeAt);
      && AllGrown(newest, NewestAfter(newest, more), n + 1)
      && ((forall c :: c in more ==> !c.NotifyUpdate?) || Announces(newest, more))
  {
    hide RouteKey;
  }

  lemma HandleTies(active: Active, newest: map<nat, Signal>, n: nat, e: SpreadEvent, chats: seq<int>, closeAt: real)
    requires Accounted(active, newest, n) && Tied(active, newest)
    ensures var (active', more) := Handle(active, e, n + 1, chats, closeAt); Tied(active', NewestAfter(newest, more))
  {
    hide RouteKey;
  }

  lemma ClimbOnce(calls: seq<Call>, newest: map<nat, Signal>, n: nat, more: seq<Call>)
    requires Climbs(calls) && Beneath(calls, newest) && Announces(newest, more)
    ensures Climbs(calls + more)
  {
    var all, s := calls + more, more[1].signal;
    assert forall i :: 0 <= i < |calls| ==> all[i] == calls[i];
    assert all[|calls|] == more[0] && all[|calls| + 1] == more[1];
    forall i | 0 <= i < |calls| && SameUpdate(calls[i], more[1]) ensures Above(calls[i].signal, s) {
      assert BeneathNewest(calls[i].signal, newest);
    }
  }

  lemma BeneathGrows(calls: seq<Call>, newest: map<nat, Signal>, n: nat, more: seq<Call>)
    requires Beneath(calls, newest) && (forall id :: id in newest ==> id <= n)
    requires AllGrown(newest, NewestAfter(newest, more), n + 1)
    requires (forall c :: c in more ==> !c.NotifyUpdate?) || Announces(newest, more)
    ensures Beneath(calls + more, NewestAfter(newest, more))
  {
    var all, after := calls + more, NewestAfter(newest, more);
    forall i | 0 <= i < |all| && all[i].NotifyUpdate? ensures BeneathNewest(all[i].signal, after) {
      if i < |calls| {
        assert BeneathNewest(calls[i].signal, newest);
        assert Grown(newest, after, calls[i].signal.id, n + 1);
      } else {
        assert all[i] == more[i - |calls|] && all[i] in more;
      }
    }
    forall id | id in after ensures 0.0 <= after[id].initialSpread <= after[id].peakSpread {
      assert Grown(newest, after, id, n + 1);
    }
  }

  lemma HandleClimbs(calls: seq<Call>, active: Active, newest: map<nat, Signal>, n: nat, e: SpreadEvent, chats: seq<int>, closeAt: real)
    requires Accounted(active, newest, n) && Tied(active, newest) && Climbs(calls) && Beneath(calls, newest)
    ensures var (active', more) := Handle(active, e, n + 1, chats, closeAt);
      Climbs(calls + more) && Beneath(calls + more, NewestAfter(newest, more)) && Tied(active', NewestAfter(newest, more))
  {
    hide RouteKey;
    hide Handle;
    hide Climbs;
    hide Beneath;
    hide Announces;
    hide AllGrown;
    hide Tied;
    hide NewestAfter;
    HandleGrows(active, newest, n, e, chats, closeAt);
    HandleTies(active, newest, n, e, chats, closeAt);
    var (active', more) := Handle(active, e, n + 1, chats, closeAt);
    BeneathGrows(calls, newest, n, more);
    if forall c :: c in more ==> !c.NotifyUpdate? {
      ClimbQuietly(calls, more);
    } else {
      ClimbOnce(calls, newest, n, more);
    }
  }

  /**
   Over any log, the peaks announced for one signal start above its opening and strictly rise, up
   to at most the peak of its newest snapshot.
   */
  lemma {:induction false} ReplayClimbs(log: seq<SpreadEvent>, chats: nat -> seq<int>, closeAt: real)
    ensures var (active, calls) := Replay(log, chats, closeAt);
      Climbs(calls) && Beneath(calls, Newest(calls)) && Tied(active, Newest(calls))
  {
    hide Handle;
    hide Climbs;
    hide Beneath;
    hide Accounted;
    hide Tied;
    if log == [] {
      assert Climbs([]) && Beneath([], map[]) && Tied(map[], map[]) by { NothingClimbs(); }
    } else {
      var front, e := log[..|log| - 1], log[|log| - 1];
      ReplayClimbs(front, chats, closeAt);
      ReplayAccounts(front, chats, closeAt);
      var (active, calls) := Replay(front, chats, closeAt);
      var more := Handle(active, e, |log|, chats(|log|), closeAt).1;
      HandleClimbs(calls, active, Newest(calls), |front|, e, chats(|log|), closeAt);
      HandleAccounts(active, Newest(calls), |front|, e, chats(|log|), closeAt);
      NewestAppend(calls, more);
      assert Newest(calls + more) == NewestAfter(Newest(calls), more);
    }
  }

  lemma NothingClimbs()
    ensures Climbs([]) && Beneath([], map[]) && Tied(map[], map[])
  {
  }

  /** The entries are the update and clearing calls of the list, with whatever users and volumes there were at each time. */
  predicate EntriesOf(entries: seq<Entry>, calls: seq<Call>) {
    if calls == [] then entries == []
    else
      var c, front := calls[|calls| - 1], calls[..|calls| - 1];
      if c.NotifyUpdate? || c.ClearUpdates? then
        entries != [] && EntryOf(entries[|entries| - 1], c) && EntriesOf(entries[..|entries| - 1], front)
      else EntriesOf(entries, front)
  }

  predicate EntryOf(e: Entry, c: Call) {
    if c.NotifyUpdate? then e.Raise? && e.round.signal == c.signal else c.ClearUpdates? && e == Forget(c.id)
  }

  predicate HasStep(entries: seq<Entry>, chat: int, step: real) {
    forall e :: e in entries && e.Raise? && chat in e.round.users ==> e.round.users[chat].updateStep == step
  }

  lemma {:induction false} ForgetIsClear(entries: seq<Entry>, calls: seq<Call>, id: nat)
    requires EntriesOf(entries, calls) && Forget(id) in entries
    ensures ClearUpdates(id) in calls
    decreases |calls|
  {
    if calls != [] {
      var front, c := calls[..|calls| - 1], calls[|calls| - 1];
      assert calls == front + [c];
      if c.NotifyUpdate? || c.ClearUpdates? {
        var before, e := entries[..|entries| - 1], entries[|entries| - 1];
        assert entries == before + [e];
        if e != Forget(id) {
          ForgetIsClear(before, front, id);
        }
      } else {
        ForgetIsClear(entries, front, id);
      }
    }
  }

  lemma {:induction false} ClearsForgetLast(entries: seq<Entry>, calls: seq<Call>, id: nat)
    requires EntriesOf(entries, calls) && ClearsLast(calls)
    ensures ForgottenLast(entries, id)
    decreases |calls|
  {
    if calls != [] {
      var front, c := calls[..|calls| - 1], calls[|calls| - 1];
      assert calls == front + [c];
      if c.NotifyUpdate? || c.ClearUpdates? {
        var before, e := entries[..|entries| - 1], entries[|entries| - 1];
        ClearsForgetLast(before, front, id);
        assert About(e, id) ==> ClearUpdates(id) !in front;
        if Forget(id) in before {
          ForgetIsClear(before, front, id);
        }
        forall i, j | 0 <= i < j < |entries| && entries[i] == Forget(id) ensures !About(entries[j], id) {
          assert entries[i] == before[i] && before[i] in before;
          if j < |before| {
            assert entries[j] == before[j];
          }
        }
      } else {
        ClearsForgetLast(entries, front, id);
      }
    }
  }

  /** A cleared signal leaves no thresholds behind, so the ledger does not grow with the signals that ended. */
  lemma {:induction false} ClosedLeavesNothing(entries: seq<Entry>, id: nat)
    requires ForgottenLast(entries, id) && Forget(id) in entries && id != 0
    ensures forall key :: key in Ledger(entries) ==> key.id != id
  {
    hide DueIn;
    hide ThresholdOf;
    var front, e := entries[..|entries| - 1], entries[|entries| - 1];
    assert entries == front + [e];
    if e != Forget(id) {
      assert Forget(id) in front;
      assert forall i :: 0 <= i < |front| ==> front[i] == entries[i];
      ClosedLeavesNothing(front, id);
      assert !About(e, id);
    }
  }

  predicate UpdateOf(c: Call, id: nat) { c.NotifyUpdate? && c.signal.id == id }

  predicate Within(calls: seq<Call>, id: nat, initial: real, cap: real) {
    forall i :: 0 <= i < |calls| && UpdateOf(calls[i], id) ==> calls[i].signal.initialSpread == initial <= calls[i].signal.peakSpread <= cap
  }

  predicate SightsWithin(sights: seq<Sight>, step: real, initial: real, cap: real) {
    forall i :: 0 <= i < |sights| ==> sights[i].step == step && initial <= sights[i].peak <= cap
  }

  lemma {:induction false} SightsBelow(entries: seq<Entry>, calls: seq<Call>, id: nat, chat: int, step: real, initial: real, cap: real)
    requires EntriesOf(entries, calls) && HasStep(entries, chat, step) && Within(calls, id, initial, cap)
    ensures SightsWithin(SightsOf(entries, id, chat, step), step, initial, cap) && SameOpening(entries, id, initial)
    decreases |calls|
  {
    if calls != [] {
      var front, c := calls[..|calls| - 1], calls[|calls| - 1];
      if c.NotifyUpdate? || c.ClearUpdates? {
        var e := entries[|entries| - 1];
        assert e in entries;
        SightsBelow(entries[..|entries| - 1], front, id, chat, step, initial, cap);
        assert About(e, id) ==> UpdateOf(calls[|calls| - 1], id);
      } else {
        SightsBelow(entries, front, id, chat, step, initial, cap);
      }
    }
  }

  lemma {:induction false} SightsRise(entries: seq<Entry>, calls: seq<Call>, id: nat, chat: int, step: real, initial: real, cap: real)
    requires EntriesOf(entries, calls) && HasStep(entries, chat, step) && Within(calls, id, initial, cap) && Climbs(calls)
    ensures RisingPeaks(initial, SightsOf(entries, id, chat, step))
    decreases |calls|
  {
    if calls != [] {
      var front, c := calls[..|calls| - 1], calls[|calls| - 1];
      var before := if c.NotifyUpdate? || c.ClearUpdates? then entries[..|entries| - 1] else entries;
      SightsRise(before, front, id, chat, step, initial, cap);
      if UpdateOf(c, id) {
        forall i | 0 <= i < |front| && UpdateOf(front[i], id) ensures front[i].signal.peakSpread <= c.signal.peakSpread {
          assert SameUpdate(calls[i], calls[|calls| - 1]);
        }
        SightsBelow(before, front, id, chat, step, initial, c.signal.peakSpread);
      }
    }
  }

  /**
   Over any log and any users, volumes and funding on the way: a user with a fixed step is told
   of a signal, tracked or closed, at most once per whole step between its opening spread and its peak.
   */
  lemma ToldWithinSteps(log: seq<SpreadEvent>, chats: nat -> seq<int>, closeAt: real, entries: seq<Entry>, id: nat, chat: int, step: real)
    requires var calls := Replay(log, chats, closeAt).1; id in Newest(calls) && EntriesOf(entries, calls)
    requires step > 0.0 && Keyed(entries) && HasStep(entries, chat, step)
    ensures var s := Newest(Replay(log, chats, closeAt).1)[id];
      && 0.0 <= s.initialSpread <= s.peakSpread
      && Told(entries, id, chat) <= Steps(s.initialSpread, s.peakSpread, step)
      && Told(entries, id, chat) <= ExactSteps(s.initialSpread, s.peakSpread, step)
           + (if ClearOfRounding(s.initialSpread, s.peakSpread, step) then 0 else 1)
  {
    hide Steps;
    hide Replay;
    hide Newest;
    hide Told;
    hide ExactSteps;
    hide ClearOfRounding;
    hide SightsOf;
    hide Issued;
    hide ClearsLast;
    ReplayClimbs(log, chats, closeAt);
    ReplayClearsLast(log, chats, closeAt);
    var calls := Replay(log, chats, closeAt).1;
    var s := Newest(calls)[id];
    var initial, peak := s.initialSpread, s.peakSpread;
    forall i | 0 <= i < |calls| && UpdateOf(calls[i], id)
      ensures calls[i].signal.initialSpread == initial <= calls[i].signal.peakSpread <= peak
    {
      assert BeneathNewest(calls[i].signal, Newest(calls));
    }
    SightsBelow(entries, calls, id, chat, step, initial, peak);
    SightsRise(entries, calls, id, chat, step, initial, peak);
    ClearsForgetLast(entries, calls, id);
    LedgerIsIssued(entries, id, chat, step, initial);
    StepsAreExact(initial, peak, step);
    var sights := SightsOf(entries, id, chat, step);
    StepsMonotone(initial, peak, peak, step);
    if sights == [] {
      NothingIssued(initial);
    } else {
      UpdatesBounded(initial, sights, step);
      StepsMonotone(initial, sights[|sights| - 1].peak, peak, step);
    }
  }

  lemma NothingIssued(initial: real)
    ensures Issued(initial, []) == []
  {
  }
}

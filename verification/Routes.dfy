/**
 One route on its own: how the aggregator's memory of it changes, what it emits, and what the
 tracker makes of the emitted events.  A run of the whole pipeline is, for each route, a run
 of this machine.
 */
module Routes {
  import opened Wrappers
  import opened Domain

  datatype RouteState = RouteState(peak: real, last: SpreadEvent, openedAt: Time)
  type RouteMem = Option<RouteState>

  datatype RouteInput =
    | Observation(ev: SpreadEvent, open: real, close: real) // the search found the route at ev.timestamp
    | Missing(now: Time)                                    // it did not, or the route expired, or shutdown
    | Untouched

  function ClosingEvent(s: RouteState, now: Time): SpreadEvent {
    s.last.(spread := 0.0, timestamp := now, lifecycle := Closed)
  }

  /** Open at or above the opening threshold, close at or below the closing one, report every new peak. */
  function Observe(st: RouteMem, ev: SpreadEvent, open: real, close: real): (RouteMem, seq<SpreadEvent>) {
    match st
    case None =>
      if ev.spread < open then (None, [])
      else (Some(RouteState(ev.spread, ev.(lifecycle := Opened), ev.timestamp)), [ev.(lifecycle := Opened)])
    case Some(s) =>
      if ev.spread <= close then (None, [ev.(lifecycle := Closed)])
      else if ev.spread > s.peak then
        (Some(s.(peak := ev.spread, last := ev)), [ev.(lifecycle := Updated)])
      else (Some(s.(last := ev)), [])
  }

  function RouteStep(st: RouteMem, input: RouteInput): (RouteMem, seq<SpreadEvent>) {
    match input
    case Observation(ev, open, close) => Observe(st, ev, open, close)
    case Missing(now) => if st.Some? then (None, [ClosingEvent(st.value, now)]) else (None, [])
    case Untouched => (st, [])
  }

  function RunRoute(inputs: seq<RouteInput>): (RouteMem, seq<SpreadEvent>) {
    if inputs == [] then (None, [])
    else
      var (st, out) := RunRoute(inputs[..|inputs| - 1]);
      var (st', more) := RouteStep(st, inputs[|inputs| - 1]);
      (st', out + more)
  }

  // ---- The event log of a route ----

  /** Opened starts the log or follows Closed, nothing else does, and Updated raises the spread. */
  predicate LegalAt(evs: seq<SpreadEvent>, i: nat)
    requires i < |evs|
  {
    && evs[i].lifecycle != Untagged
    && (evs[i].lifecycle == Opened <==> i == 0 || evs[i - 1].lifecycle == Closed)
    && (evs[i].lifecycle == Updated ==> evs[i].spread > evs[i - 1].spread)
  }

  /** (Opened Updated* Closed)*, cut anywhere, with spreads strictly increasing inside an episode. */
  predicate LegalLog(evs: seq<SpreadEvent>) { forall i :: 0 <= i < |evs| ==> LegalAt(evs, i) }

  predicate LogIsOpen(evs: seq<SpreadEvent>) { evs != [] && evs[|evs| - 1].lifecycle != Closed }

  lemma LegalAppend(evs: seq<SpreadEvent>, e: SpreadEvent)
    requires LegalLog(evs) && e.lifecycle != Untagged
    requires e.lifecycle == Opened <==> !LogIsOpen(evs)
    requires e.lifecycle == Updated ==> e.spread > evs[|evs| - 1].spread
    ensures LegalLog(evs + [e])
  {
    var all := evs + [e];
    forall i | 0 <= i < |all| ensures LegalAt(all, i) {
      if i < |evs| {
        assert LegalAt(evs, i) && all[i] == evs[i];
        assert i > 0 ==> all[i - 1] == evs[i - 1];
      } else {
        assert i > 0 ==> all[i - 1] == evs[|evs| - 1];
      }
    }
  }

  /** One step emits at most one event, and its tag and spread fit the memory before and after. */
  lemma StepTags(st: RouteMem, input: RouteInput)
    ensures var (st', out) := RouteStep(st, input);
      && |out| <= 1
      && (out == [] ==> (st'.Some? <==> st.Some?) && (st.Some? ==> st'.value.peak == st.value.peak))
      && (out != [] ==>
        && out[0].lifecycle != Untagged
        && (out[0].lifecycle == Opened <==> st.None?)
        && (out[0].lifecycle == Closed <==> st'.None?)
        && (out[0].lifecycle == Updated ==> out[0].spread > st.value.peak)
        && (st'.Some? ==> st'.value.peak == out[0].spread))
  {
  }

  lemma RunSnoc(inputs: seq<RouteInput>, x: RouteInput)
    ensures RunRoute(inputs + [x])
         == (RouteStep(RunRoute(inputs).0, x).0, RunRoute(inputs).1 + RouteStep(RunRoute(inputs).0, x).1)
  {
    assert (inputs + [x])[..|inputs|] == inputs;
  }

  /** Every run logs whole episodes; the route is active exactly while the last tag is not Closed. */
  lemma {:induction false} RouteGrammar(inputs: seq<RouteInput>)
    ensures var (st, evs) := RunRoute(inputs);
      && LegalLog(evs)
      && (st.Some? <==> LogIsOpen(evs))
      && (st.Some? ==> st.value.peak == evs[|evs| - 1].spread)
  {
    if inputs != [] {
      var front, x := inputs[..|inputs| - 1], inputs[|inputs| - 1];
      RouteGrammar(front);
      var (st, evs) := RunRoute(front);
      var out := RouteStep(st, x).1;
      StepTags(st, x);
      if out == [] {
        assert evs + out == evs;
      } else {
        assert out == [out[0]];
        LegalAppend(evs, out[0]);
      }
    }
  }

  // ---- What the tracker makes of it ----

  datatype TrackView = TrackView(openedAt: Time, peak: real)

  predicate Accepted(e: SpreadEvent) { e.timestamp != 0 && e.symbol != "" && e.spread >= 0.0 }

  /** The tracker's entry for one route under a tagged event, reduced to its opening time and peak. */
  function TrackStep(v: Option<TrackView>, e: SpreadEvent): Option<TrackView> {
    if !Accepted(e) then v
    else
      match e.lifecycle
      case Opened => if v.None? then Some(TrackView(e.timestamp, e.spread)) else v
      case Updated =>
        if v.Some? && e.timestamp >= v.value.openedAt && e.spread > v.value.peak then
          Some(v.value.(peak := e.spread))
        else v
      case Closed => if v.Some? && e.timestamp >= v.value.openedAt then None else v
      case Untagged => v
  }

  function Track(evs: seq<SpreadEvent>): Option<TrackView> {
    if evs == [] then None else TrackStep(Track(evs[..|evs| - 1]), evs[|evs| - 1])
  }

  /** The tracker agrees with the aggregator: same activity, same opening time, same peak. */
  predicate Mirrors(v: Option<TrackView>, st: RouteMem) {
    v == if st.Some? then Some(TrackView(st.value.openedAt, st.value.peak)) else None
  }

  /** What the aggregator guarantees about every input of a route. */
  predicate GoodInput(input: RouteInput) {
    match input
    case Observation(ev, open, close) => Accepted(ev) && open > 0.0 && close > 0.0
    case Missing(now) => now != 0
    case Untouched => true
  }

  predicate GoodInputs(inputs: seq<RouteInput>) { forall i :: 0 <= i < |inputs| ==> GoodInput(inputs[i]) }

  function InputTime(input: RouteInput): Option<Time> {
    match input
    case Observation(ev, _, _) => Some(ev.timestamp)
    case Missing(now) => Some(now)
    case Untouched => None
  }

  /** The step does not change an open route at a time before it opened. */
  predicate OnTime(st: RouteMem, input: RouteInput) {
    st.Some? && RouteStep(st, input).1 != [] ==> InputTime(input).value >= st.value.openedAt
  }

  lemma {:induction false} TrackAppend(evs: seq<SpreadEvent>, more: seq<SpreadEvent>)
    requires |more| <= 1
    ensures Track(evs + more) == if more == [] then Track(evs) else TrackStep(Track(evs), more[0])
  {
    if more == [] {
      assert evs + more == evs;
    } else {
      assert (evs + more)[..|evs|] == evs;
    }
  }

  lemma {:induction false} LastSymbol(inputs: seq<RouteInput>)
    requires GoodInputs(inputs)
    ensures var st := RunRoute(inputs).0; st.Some? ==> st.value.last.symbol != ""
  {
    if inputs != [] {
      LastSymbol(inputs[..|inputs| - 1]);
    }
  }

  /** Nothing a route emits is stopped by the tracker's guards. */
  lemma {:induction false} OutputsAccepted(inputs: seq<RouteInput>)
    requires GoodInputs(inputs)
    ensures forall e :: e in RunRoute(inputs).1 ==> Accepted(e)
  {
    if inputs != [] {
      var front := inputs[..|inputs| - 1];
      OutputsAccepted(front);
      LastSymbol(front);
      OutputAccepted(RunRoute(front).0, inputs[|inputs| - 1]);
    }
  }

  lemma OutputAccepted(st: RouteMem, input: RouteInput)
    requires GoodInput(input) && (st.Some? ==> st.value.last.symbol != "")
    ensures forall e :: e in RouteStep(st, input).1 ==> Accepted(e)
  {
  }

  /** One step of both sides: they agree afterwards exactly when the step is on time. */
  lemma MirrorStep(st: RouteMem, input: RouteInput, v: Option<TrackView>)
    requires GoodInput(input) && Mirrors(v, st) && (st.Some? ==> st.value.last.symbol != "")
    ensures var (st', out) := RouteStep(st, input);
      |out| <= 1 && (Mirrors(if out == [] then v else TrackStep(v, out[0]), st') <==> OnTime(st, input))
  {
  }

  ghost predicate MirroredThroughout(inputs: seq<RouteInput>) {
    forall n :: 0 <= n <= |inputs| ==> Mirrors(Track(RunRoute(inputs[..n]).1), RunRoute(inputs[..n]).0)
  }

  ghost predicate OnTimeThroughout(inputs: seq<RouteInput>) {
    forall n :: 0 <= n < |inputs| ==> OnTime(RunRoute(inputs[..n]).0, inputs[n])
  }

  lemma MirrorNext(inputs: seq<RouteInput>, n: nat)
    requires GoodInputs(inputs) && n < |inputs|
    requires Mirrors(Track(RunRoute(inputs[..n]).1), RunRoute(inputs[..n]).0)
    ensures Mirrors(Track(RunRoute(inputs[..n + 1]).1), RunRoute(inputs[..n + 1]).0)
       <==> OnTime(RunRoute(inputs[..n]).0, inputs[n])
  {
    var front := inputs[..n];
    assert inputs[..n + 1][..n] == front;
    var (st, out) := RunRoute(front);
    LastSymbol(front);
    MirrorStep(st, inputs[n], Track(out));
    TrackAppend(out, RouteStep(st, inputs[n]).1);
  }

  /** The tracker mirrors the aggregator at every moment exactly when no event precedes its route's opening. */
  lemma MirrorExactly(inputs: seq<RouteInput>)
    requires GoodInputs(inputs)
    ensures MirroredThroughout(inputs) <==> OnTimeThroughout(inputs)
  {
    if MirroredThroughout(inputs) {
      forall n | 0 <= n < |inputs| ensures OnTime(RunRoute(inputs[..n]).0, inputs[n]) {
        MirrorNext(inputs, n);
      }
    }
    if OnTimeThroughout(inputs) {
      forall n | 0 <= n <= |inputs| ensures Mirrors(Track(RunRoute(inputs[..n]).1), RunRoute(inputs[..n]).0) {
        MirrorForward(inputs, n);
      }
    }
  }

  lemma {:induction false} MirrorForward(inputs: seq<RouteInput>, n: nat)
    requires GoodInputs(inputs) && OnTimeThroughout(inputs) && n <= |inputs|
    ensures Mirrors(Track(RunRoute(inputs[..n]).1), RunRoute(inputs[..n]).0)
  {
    if n == 0 {
      assert inputs[..0] == [];
    } else {
      MirrorForward(inputs, n - 1);
      MirrorNext(inputs, n - 1);
    }
  }

  /** Times never go back along the inputs. */
  predicate Ordered(inputs: seq<RouteInput>) {
    forall i, j :: 0 <= i < j < |inputs| && InputTime(inputs[i]).Some? && InputTime(inputs[j]).Some?
      ==> InputTime(inputs[i]).value <= InputTime(inputs[j]).value
  }

  lemma {:induction false} OpenedInThePast(inputs: seq<RouteInput>)
    ensures var st := RunRoute(inputs).0;
      st.Some? ==> exists i :: 0 <= i < |inputs| && InputTime(inputs[i]) == Some(st.value.openedAt)
  {
    if inputs != [] {
      var front := inputs[..|inputs| - 1];
      OpenedInThePast(front);
      var st, st' := RunRoute(front).0, RunRoute(inputs).0;
      if st'.Some? && st.Some? {
        var i :| 0 <= i < |front| && InputTime(front[i]) == Some(st.value.openedAt);
        assert InputTime(inputs[i]) == Some(st'.value.openedAt);
      } else if st'.Some? {
        assert InputTime(inputs[|inputs| - 1]) == Some(st'.value.openedAt);
      }
    }
  }

  lemma OrderedIsOnTime(inputs: seq<RouteInput>)
    requires Ordered(inputs)
    ensures OnTimeThroughout(inputs)
  {
    forall n | 0 <= n < |inputs| ensures OnTime(RunRoute(inputs[..n]).0, inputs[n]) {
      OpenedInThePast(inputs[..n]);
      var st := RunRoute(inputs[..n]).0;
      if st.Some? && inputs[n] != Untouched {
        var i :| 0 <= i < n && InputTime(inputs[..n][i]) == Some(st.value.openedAt);
        assert inputs[..n][i] == inputs[i];
      }
    }
  }

  /** Ordered inputs leave the tracker with the same activity, opening time and peak. */
  lemma OrderedMirror(inputs: seq<RouteInput>)
    requires GoodInputs(inputs) && Ordered(inputs)
    ensures Mirrors(Track(RunRoute(inputs).1), RunRoute(inputs).0)
  {
    OrderedIsOnTime(inputs);
    MirrorExactly(inputs);
    assert inputs[..|inputs|] == inputs;
  }

  /** Without order the mirror breaks: a close stamped before the opening is dropped by the tracker. */
  lemma DisorderBreaksTheMirror(ev: SpreadEvent, open: real, close: real, early: Time)
    requires Accepted(ev) && ev.spread >= open > 0.0 && close > 0.0
    requires early != 0 && early < ev.timestamp
    ensures var inputs := [Observation(ev, open, close), Missing(early)];
      GoodInputs(inputs) && RunRoute(inputs).0.None? && Track(RunRoute(inputs).1).Some?
  {
    var inputs := [Observation(ev, open, close), Missing(early)];
    assert inputs[..0] == [] && inputs[..1] == [] + [inputs[0]] && inputs[..2] == inputs == inputs[..1] + [inputs[1]];
    RunSnoc([], inputs[0]);
    RunSnoc(inputs[..1], inputs[1]);
    MirrorNext(inputs, 0);
    MirrorNext(inputs, 1);
    hide Track;
  }

  /** A close overtaken by the reopening of its route ends the new episode instead: the order of sends matters. */
  lemma LateCloseBreaksTheMirror(ev: SpreadEvent, again: SpreadEvent, open: real, close: real, between: Time)
    requires Accepted(ev) && Accepted(again) && ev.spread >= open > 0.0 && again.spread >= open && close > 0.0
    requires ev.timestamp <= between <= again.timestamp && between != 0
    ensures var inputs := [Observation(ev, open, close), Missing(between), Observation(again, open, close)];
      var (st, out) := RunRoute(inputs);
      && GoodInputs(inputs) && Ordered(inputs) && |out| == 3 && st.Some?
      && Track([out[0], out[2], out[1]]).None?
  {
    LateCloseRun(ev, again, open, close, between);
    var out := RunRoute([Observation(ev, open, close), Missing(between), Observation(again, open, close)]).1;
    LateCloseTrack(out[0], out[1], out[2]);
  }

  lemma LateCloseRun(ev: SpreadEvent, again: SpreadEvent, open: real, close: real, between: Time)
    requires Accepted(ev) && Accepted(again) && ev.spread >= open > 0.0 && again.spread >= open && close > 0.0
    requires ev.timestamp <= between <= again.timestamp && between != 0
    ensures var inputs := [Observation(ev, open, close), Missing(between), Observation(again, open, close)];
      var (st, out) := RunRoute(inputs);
      && GoodInputs(inputs) && Ordered(inputs) && |out| == 3 && st.Some?
      && out[0] == ev.(lifecycle := Opened) && out[2] == again.(lifecycle := Opened)
      && out[1] == ev.(spread := 0.0, timestamp := between, lifecycle := Closed)
  {
    var a, b, c := Observation(ev, open, close), Missing(between), Observation(again, open, close);
    assert [a, b] == [a] + [b] && [a, b, c] == [a, b] + [c] && [a] == [] + [a];
    RunSnoc([], a);
    RunSnoc([a], b);
    RunSnoc([a, b], c);
    assert RunRoute([]) == (None, []);
    hide RunRoute;
  }

  lemma LateCloseTrack(first: SpreadEvent, closing: SpreadEvent, second: SpreadEvent)
    requires Accepted(first) && Accepted(second) && Accepted(closing)
    requires first.lifecycle == Opened == second.lifecycle && closing.lifecycle == Closed
    requires first.timestamp <= closing.timestamp
    ensures Track([first, second, closing]).None?
  {
    TrackAppend([], [first]);
    TrackAppend([first], [second]);
    TrackAppend([first, second], [closing]);
    assert [] + [first] == [first] && [first] + [second] == [first, second];
    assert [first, second] + [closing] == [first, second, closing];
  }

  // ---- What a late close does to the tracker ----

  predicate HasNone(evs: seq<SpreadEvent>, tag: Lifecycle) { forall e :: e in evs ==> e.lifecycle != tag }

  /** Every part of a log is the log of a part of the run. */
  lemma {:induction false} LogOfPart(inputs: seq<RouteInput>, k: nat) returns (n: nat)
    requires k <= |RunRoute(inputs).1|
    ensures n <= |inputs| && RunRoute(inputs[..n]).1 == RunRoute(inputs).1[..k]
  {
    var log := RunRoute(inputs).1;
    if k == |log| {
      n := |inputs|;
      assert inputs[..n] == inputs && log[..k] == log;
    } else {
      var front, x := inputs[..|inputs| - 1], inputs[|inputs| - 1];
      StepTags(RunRoute(front).0, x);
      assert log == RunRoute(front).1 + RouteStep(RunRoute(front).0, x).1;
      n := LogOfPart(front, k);
      assert inputs[..n] == front[..n] && RunRoute(front).1[..k] == log[..k];
    }
  }

  /** In order of time the tracker agrees with the log after every event. */
  lemma TrackOfPart(inputs: seq<RouteInput>, k: nat)
    requires GoodInputs(inputs) && Ordered(inputs) && k <= |RunRoute(inputs).1|
    ensures var part := RunRoute(inputs).1[..k]; Track(part).Some? <==> LogIsOpen(part)
  {
    var n := LogOfPart(inputs, k);
    OrderedIsOnTime(inputs);
    MirrorForward(inputs, n);
    RouteGrammar(inputs[..n]);
  }

  /** Without a close the entry stays, and keeps the opening time it has. */
  lemma {:induction false} KeptWithoutClose(evs: seq<SpreadEvent>, more: seq<SpreadEvent>)
    requires Track(evs).Some? && HasNone(more, Closed)
    ensures Track(evs + more).Some? && Track(evs + more).value.openedAt == Track(evs).value.openedAt
  {
    if more == [] {
      assert evs + more == evs;
    } else {
      var front, e := more[..|more| - 1], more[|more| - 1];
      assert more == front + [e] && e in more;
      KeptWithoutClose(evs, front);
      assert evs + more == (evs + front) + [e];
      TrackAppend(evs + front, [e]);
      hide Track;
    }
  }

  /** Without an opening no entry comes into being. */
  lemma {:induction false} NoneWithoutOpening(evs: seq<SpreadEvent>, more: seq<SpreadEvent>)
    requires Track(evs).None? && HasNone(more, Opened)
    ensures Track(evs + more).None?
  {
    if more == [] {
      assert evs + more == evs;
    } else {
      var front, e := more[..|more| - 1], more[|more| - 1];
      assert more == front + [e] && e in more;
      NoneWithoutOpening(evs, front);
      assert evs + more == (evs + front) + [e];
      TrackAppend(evs + front, [e]);
      hide Track;
    }
  }

  /** Where the log has a close the tracker has an entry, opened before it. */
  lemma CloseMeetsEntry(inputs: seq<RouteInput>, k: nat)
    requires GoodInputs(inputs) && Ordered(inputs)
    requires k < |RunRoute(inputs).1| && RunRoute(inputs).1[k].lifecycle == Closed
    ensures var log := RunRoute(inputs).1;
      Track(log[..k]).Some? && Accepted(log[k]) && log[k].timestamp >= Track(log[..k]).value.openedAt
  {
    var log := RunRoute(inputs).1;
    RouteGrammar(inputs);
    assert LegalAt(log, k);
    TrackOfPart(inputs, k);
    TrackOfPart(inputs, k + 1);
    assert log[..k + 1] == log[..k] + [log[k]];
    TrackAppend(log[..k], [log[k]]);
    hide Track;
    hide RunRoute;
  }

  /**
   A close that reaches the tracker after the events that follow it in the log: it ends the entry
   that swallowed them, so the tracker has lost the episode they belong to, and nothing but the next
   opening brings it back.
   */
  lemma LateCloseLosesTheEpisode(
    inputs: seq<RouteInput>, before: seq<SpreadEvent>, closing: SpreadEvent, after: seq<SpreadEvent>, rest: seq<SpreadEvent>)
    requires GoodInputs(inputs) && Ordered(inputs)
    requires RunRoute(inputs).1 == before + [closing] + after
    requires closing.lifecycle == Closed && HasNone(after, Closed) && HasNone(rest, Opened)
    ensures Track(before + after + [closing] + rest).None?
  {
    hide RunRoute;
    hide Track;
    hide Ordered;
    CloseMeetsEntry(inputs, |before|);
    assert (before + [closing] + after)[..|before|] == before;
    KeptWithoutClose(before, after);
    TrackAppend(before + after, [closing]);
    NoneWithoutOpening(before + after + [closing], rest);
  }

  /** So delaying the last close behind what follows it is harmless exactly when nothing follows it. */
  lemma LateCloseHarmlessExactly(
    inputs: seq<RouteInput>, before: seq<SpreadEvent>, closing: SpreadEvent, after: seq<SpreadEvent>)
    requires GoodInputs(inputs) && Ordered(inputs)
    requires RunRoute(inputs).1 == before + [closing] + after
    requires closing.lifecycle == Closed && HasNone(after, Closed)
    ensures Mirrors(Track(before + after + [closing]), RunRoute(inputs).0) <==> after == []
  {
    if after == [] {
      assert before + after + [closing] == RunRoute(inputs).1;
      OrderedMirror(inputs);
    } else {
      var log := RunRoute(inputs).1;
      LateCloseLosesTheEpisode(inputs, before, closing, after, []);
      assert before + after + [closing] + [] == before + after + [closing];
      RouteGrammar(inputs);
      assert log[|log| - 1] == after[|after| - 1];
    }
  }
}

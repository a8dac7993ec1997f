/**
 What the aggregator remembers of a route.  The sightings of a route are the observations of its
 open episode, read off the inputs; memory and events are told from them alone.
 */
module RoutePeaks {
  import opened Wrappers
  import opened Domain
  import opened Routes

  /** The observations since the route opened: it opens at its opening threshold and ends at its closing one. */
  function NextSightings(seen: seq<SpreadEvent>, input: RouteInput): seq<SpreadEvent> {
    match input
    case Observation(ev, open, close) =>
      if seen == [] then (if ev.spread >= open then [ev] else []) else if ev.spread > close then seen + [ev] else []
    case Missing(_) => []
    case Untouched => seen
  }

  function Sightings(inputs: seq<RouteInput>): seq<SpreadEvent> {
    if inputs == [] then [] else NextSightings(Sightings(inputs[..|inputs| - 1]), inputs[|inputs| - 1])
  }

  /** The spread is above all sighted so far. */
  predicate AboveAll(ev: SpreadEvent, seen: seq<SpreadEvent>) { forall e :: e in seen ==> e.spread < ev.spread }

  predicate IsPeak(peak: real, seen: seq<SpreadEvent>) {
    (forall e :: e in seen ==> e.spread <= peak) && exists e :: e in seen && e.spread == peak
  }

  /** The memory is of the first, the last and the highest sighting. */
  predicate Remembers(st: RouteMem, seen: seq<SpreadEvent>) {
    && (st.Some? <==> seen != [])
    && (st.Some? ==>
          && st.value.openedAt == seen[0].timestamp && IsPeak(st.value.peak, seen)
          && st.value.last.(lifecycle := Untagged) == seen[|seen| - 1].(lifecycle := Untagged))
  }

  /**
   What one input emits: the opening with the first sighting, an update exactly for a sighting above all before it,
   a close with the observation that ends the episode, or, when the route is gone, with its last figures and no spread.
   */
  predicate Emits(out: seq<SpreadEvent>, seen: seq<SpreadEvent>, input: RouteInput) {
    match input
    case Observation(ev, open, close) =>
      if seen == [] then out == (if ev.spread >= open then [ev.(lifecycle := Opened)] else [])
      else if ev.spread <= close then out == [ev.(lifecycle := Closed)]
      else out == (if AboveAll(ev, seen) then [ev.(lifecycle := Updated)] else [])
    case Missing(now) =>
      if seen == [] then out == []
      else out == [seen[|seen| - 1].(spread := 0.0, timestamp := now, lifecycle := Closed)]
    case Untouched => out == []
  }

  lemma PeakOfMore(peak: real, seen: seq<SpreadEvent>, ev: SpreadEvent)
    requires IsPeak(peak, seen)
    ensures IsPeak(if ev.spread > peak then ev.spread else peak, seen + [ev])
    ensures ev.spread > peak <==> AboveAll(ev, seen)
  {
    var e :| e in seen && e.spread == peak;
    assert ev in seen + [ev] && e in seen + [ev];
  }

  lemma StepRemembers(st: RouteMem, seen: seq<SpreadEvent>, input: RouteInput)
    requires Remembers(st, seen)
    ensures Remembers(RouteStep(st, input).0, NextSightings(seen, input)) && Emits(RouteStep(st, input).1, seen, input)
  {
    if input.Observation? {
      if seen == [] {
        assert input.ev.spread >= input.open ==> IsPeak(input.ev.spread, [input.ev]) by { assert input.ev in [input.ev]; }
      } else {
        PeakOfMore(st.value.peak, seen, input.ev);
      }
    }
    hide IsPeak;
    hide AboveAll;
  }

  /** In every run of a route its memory is of its sightings. */
  lemma {:induction false} RouteRemembers(inputs: seq<RouteInput>)
    ensures Remembers(RunRoute(inputs).0, Sightings(inputs))
  {
    hide RouteStep;
    hide NextSightings;
    hide Remembers;
    if inputs == [] {
      NothingRemembered();
    } else {
      var front := inputs[..|inputs| - 1];
      RouteRemembers(front);
      StepRemembers(RunRoute(front).0, Sightings(front), inputs[|inputs| - 1]);
    }
  }

  lemma NothingRemembered()
    ensures Remembers(None, [])
  {
  }

  /** And each input emits what it does to the sightings. */
  lemma RouteEmits(inputs: seq<RouteInput>, input: RouteInput)
    ensures RunRoute(inputs).1 <= RunRoute(inputs + [input]).1
    ensures Emits(RunRoute(inputs + [input]).1[|RunRoute(inputs).1|..], Sightings(inputs), input)
  {
    RouteRemembers(inputs);
    StepRemembers(RunRoute(inputs).0, Sightings(inputs), input);
    RunSnoc(inputs, input);
    hide RouteStep;
    hide Emits;
    var out, more := RunRoute(inputs).1, RouteStep(RunRoute(inputs).0, input).1;
    assert (out + more)[|out|..] == more;
  }
}

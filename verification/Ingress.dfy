/**
 The ingress coalescer of one channel: a map from market to its latest tick, a wake token, one
 goroutine that forwards ticks, and a stop protocol.
 */
module Ingress {
  import opened Wrappers
  import opened Domain

  datatype TickKey = TickKey(exchange: string, symbol: string, market: Market)

  function KeyOfTick(t: MarketTick): TickKey { TickKey(t.exchange, t.symbol, t.market) }

  /** The ticks of a list that belong to a key. */
  function Of(ticks: seq<MarketTick>, key: TickKey): seq<MarketTick> {
    if ticks == [] then []
    else
      var front, t := Of(ticks[..|ticks| - 1], key), ticks[|ticks| - 1];
      if KeyOfTick(t) == key then front + [t] else front
  }

  function OneOrNone(m: map<TickKey, MarketTick>, key: TickKey): seq<MarketTick> {
    if key in m then [m[key]] else []
  }

  /** Of every key the tick held before was forwarded, is still held, or is the one dropped. */
  predicate Balanced(before: map<TickKey, MarketTick>, sent: seq<MarketTick>, after: map<TickKey, MarketTick>,
                     dropped: Option<MarketTick>, key: TickKey)
  {
    OneOrNone(before, key) == Of(sent, key) + OneOrNone(after, key) + (if dropped.Some? then Of([dropped.value], key) else [])
  }

  lemma NothingMoved(m: map<TickKey, MarketTick>)
    ensures forall key :: Balanced(m, [], m, None, key)
  {
  }

  lemma OneMoved(before: map<TickKey, MarketTick>, sent: seq<MarketTick>, held: map<TickKey, MarketTick>, t: MarketTick)
    requires forall key :: Balanced(before, sent, held, None, key)
    requires Get(held, KeyOfTick(t)) == Some(t)
    ensures forall key :: Balanced(before, sent + [t], held - {KeyOfTick(t)}, None, key)
    ensures forall key :: Balanced(before, sent, held - {KeyOfTick(t)}, Some(t), key)
  {
    forall key
      ensures Balanced(before, sent + [t], held - {KeyOfTick(t)}, None, key)
      ensures Balanced(before, sent, held - {KeyOfTick(t)}, Some(t), key)
    {
      OneMovedAt(before, sent, held, t, key);
    }
  }

  lemma OneMovedAt(before: map<TickKey, MarketTick>, sent: seq<MarketTick>, held: map<TickKey, MarketTick>, t: MarketTick, key: TickKey)
    requires Balanced(before, sent, held, None, key) && Get(held, KeyOfTick(t)) == Some(t)
    ensures Balanced(before, sent + [t], held - {KeyOfTick(t)}, None, key)
    ensures Balanced(before, sent, held - {KeyOfTick(t)}, Some(t), key)
  {
    OfAppend(sent, t, key);
    assert Of([t], key) == if KeyOfTick(t) == key then [t] else [] by { assert [t][..0] == []; }
  }

  class Coalescer {
    var latest: map<TickKey, MarketTick>
    var token: bool
    var stopped: bool
    var done: bool

    ghost predicate Valid()
      reads this
    {
      && (forall k :: k in latest ==> KeyOfTick(latest[k]) == k)
      && (done ==> stopped)
    }

    constructor ()
      ensures Valid() && latest == map[] && !token && !stopped && !done
    {
      latest, token, stopped, done := map[], false, false, false;
    }

    method Submit(t: MarketTick)
      requires Valid()
      modifies this`latest, this`token
      ensures Valid()
      ensures latest == if stopped then old(latest) else old(latest)[KeyOfTick(t) := t]
      ensures token == (old(token) || !stopped)
    {
      if stopped {
        return;
      }
      latest := latest[KeyOfTick(t) := t];
      token := true;
    }

    method Next() returns (t: Option<MarketTick>)
      requires Valid()
      modifies this`latest
      ensures Valid()
      ensures t.None? <==> old(latest) == map[]
      ensures t.None? ==> latest == old(latest)
      ensures t.Some? ==> Get(old(latest), KeyOfTick(t.value)) == t && latest == old(latest) - {KeyOfTick(t.value)}
    {
      if latest.Keys == {} {
        return None;
      }
      var k := Pick(latest.Keys);
      t := Some(latest[k]);
      latest := latest - {k};
    }

    method Put(t: MarketTick)
      requires Valid()
      modifies this`latest
      ensures Valid()
      ensures latest == if stopped then old(latest) else old(latest)[KeyOfTick(t) := t]
    {
      if !stopped {
        latest := latest[KeyOfTick(t) := t];
      }
    }

    /**
     Forwards ticks while the reader takes them (`room` of them); then only the stop signal can
     be received.  Every key's tick is either forwarded once or kept, and the one tick that was
     taken out for a reader that is gone is not written back, because the stop is already in force.
     */
    method Flush(room: nat) returns (sent: seq<MarketTick>, dropped: Option<MarketTick>)
      requires Valid()
      requires done || |latest| <= room
      modifies this`latest
      ensures Valid()
      ensures dropped.Some? ==> done
      ensures forall key :: Balanced(old(latest), sent, latest, dropped, key)
      ensures !done ==> latest == map[] && |sent| == |old(latest)|
    {
      hide Of;
      hide OneOrNone;
      hide Balanced;
      sent, dropped := [], None;
      ghost var before := latest;
      NothingMoved(before);
      while true
        invariant Valid() && |sent| <= room && |before| == |sent| + |latest| && dropped == None
        invariant forall key :: Balanced(before, sent, latest, None, key)
        decreases |latest|
      {
        ghost var held := latest;
        var t := Next();
        if t.None? {
          return;
        }
        assert |held| == |latest| + 1 by { assert held.Keys == latest.Keys + {KeyOfTick(t.value)}; }
        OneMoved(before, sent, held, t.value);
        if |sent| < room {
          sent := sent + [t.value];
        } else {
          Put(t.value);
          dropped := t;
          return;
        }
      }
    }

    method DrainAndStop()
      requires Valid()
      modifies this
      ensures Valid() && stopped && done && latest == map[] && token == old(token)
    {
      stopped := true;
      latest := map[];
      done := true;
    }
  }

  lemma OfAppend(ticks: seq<MarketTick>, t: MarketTick, key: TickKey)
    ensures Of(ticks + [t], key) == Of(ticks, key) + Of([t], key)
  {
    assert (ticks + [t])[..|ticks|] == ticks;
    assert [t][..0] == [];
  }
}

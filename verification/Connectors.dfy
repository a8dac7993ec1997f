/**
 The connector manager: at most one running connector per exchange.  Connectors are numbered in
 the order in which they are started; `names` holds the exchange of each.
 */
module Connectors {
  import opened Wrappers
  import opened Text

  datatype Outcome = Done | EmptyName | NilConnector | ManagerStopped | NotFound | StopTimedOut

  /** Every connector still running is the registered one of its exchange. */
  ghost predicate Registered(entries: map<string, nat>, live: set<nat>, names: seq<string>) {
    && (forall id :: id in live ==> id < |names|)
    && (forall name :: name in entries ==> entries[name] < |names| && names[entries[name]] == name)
    && (forall id :: id in live && id < |names| ==> Get(entries, names[id]) == Some(id))
  }

  ghost predicate OnePerName(live: set<nat>, names: seq<string>) {
    forall i, j :: i in live && j in live && i < |names| && j < |names| && names[i] == names[j] ==> i == j
  }

  /** The connectors of a map that do not end in time, by name. */
  function Stuck(entries: map<string, nat>, live: set<nat>, dying: set<nat>): set<string> {
    set name | name in entries && entries[name] in live && entries[name] !in dying
  }

  lemma EndKeeps(entries: map<string, nat>, live: set<nat>, names: seq<string>, name: string)
    requires Registered(entries, live, names) && OnePerName(live, names) && name in entries
    ensures Registered(entries - {name}, live - {entries[name]}, names)
    ensures OnePerName(live - {entries[name]}, names)
  {
  }

  lemma StartKeeps(entries: map<string, nat>, live: set<nat>, names: seq<string>, name: string)
    requires Registered(entries, live, names) && OnePerName(live, names) && name !in entries
    ensures Registered(entries[name := |names|], live + {|names|}, names + [name])
    ensures OnePerName(live + {|names|}, names + [name])
  {
  }

  class ConnectorManager {
    var entries: map<string, nat>
    var stopped: bool
    var live: set<nat>
    var names: seq<string>
    var failed: set<string>

    ghost predicate Valid()
      reads this
    {
      && (stopped ==> entries == map[])
      && (!stopped ==> Registered(entries, live, names))
      && OnePerName(live, names)
      && (forall id :: id in live ==> id < |names|)
    }

    constructor ()
      ensures Valid() && entries == map[] && !stopped && live == {} && names == [] && failed == {}
    {
      entries, stopped, live, names, failed := map[], false, {}, [], {};
    }

    /** Cancels a connector and waits; `dies` says whether it ends before the timeout. */
    method StopEntry(id: nat, dies: bool) returns (ok: bool)
      modifies this`live
      ensures ok <==> id !in old(live) || dies
      ensures live == if ok then old(live) - {id} else old(live)
    {
      if dies {
        live := live - {id};
      }
      return id !in live;
    }

    /** A running connector of the same exchange is stopped first; if it does not end, nothing is started. */
    method AddConnector(raw: string, isNil: bool, dies: bool) returns (outcome: Outcome)
      requires Valid()
      modifies this
      ensures Valid()
      ensures stopped == old(stopped) && failed == old(failed)
      ensures var name := NormalName(raw);
        outcome == if name == "" then EmptyName
                   else if isNil then NilConnector
                   else if stopped then ManagerStopped
                   else if name in old(entries) && old(entries)[name] in old(live) && !dies then StopTimedOut
                   else Done
      ensures outcome != Done ==> entries == old(entries) && live == old(live) && names == old(names)
      ensures outcome == Done ==>
        var name := NormalName(raw);
        && names == old(names) + [name]
        && entries == old(entries)[name := |old(names)|]
        && live == (if name in old(entries) then old(live) - {old(entries)[name]} else old(live)) + {|old(names)|}
    {
      hide NormalName;
      hide Registered;
      hide OnePerName;
      var name := NormalName(raw);
      if name == "" {
        return EmptyName;
      }
      if isNil {
        return NilConnector;
      }
      if stopped {
        return ManagerStopped;
      }
      if name in entries {
        EndKeeps(entries, live, names, name);
        var ended := StopEntry(entries[name], dies);
        if !ended {
          return StopTimedOut;
        }
        entries := entries - {name};
      }
      StartKeeps(entries, live, names, name);
      entries, live, names := entries[name := |names|], live + {|names|}, names + [name];
      return Done;
    }

    /** A connector that does not end in time stays registered. */
    method RemoveConnector(raw: string, dies: bool) returns (outcome: Outcome)
      requires Valid()
      modifies this`entries, this`live
      ensures Valid()
      ensures var name := NormalName(raw);
        outcome == if name == "" then EmptyName
                   else if stopped then ManagerStopped
                   else if name !in old(entries) then NotFound
                   else if old(entries)[name] in old(live) && !dies then StopTimedOut
                   else Done
      ensures outcome != Done ==> entries == old(entries) && live == old(live)
      ensures outcome == Done ==>
        var name := NormalName(raw);
        entries == old(entries) - {name} && live == old(live) - {old(entries)[name]}
    {
      var name := NormalName(raw);
      if name == "" {
        return EmptyName;
      }
      if stopped {
        return ManagerStopped;
      }
      if name !in entries {
        return NotFound;
      }
      var ended := StopEntry(entries[name], dies);
      if !ended {
        return StopTimedOut;
      }
      entries := entries - {name};
      return Done;
    }

    /** The first call stops everything; later calls only repeat its report.  `dying` are those that end in time. */
    method StopAll(dying: set<nat>) returns (report: set<string>)
      requires Valid()
      modifies this
      ensures Valid() && stopped && entries == map[] && names == old(names) && report == failed
      ensures old(stopped) ==> live == old(live) && failed == old(failed)
      ensures !old(stopped) ==> failed == Stuck(old(entries), old(live), dying) && live == old(live) - dying
      ensures !old(stopped) ==> (failed == {} <==> live == {})
    {
      if stopped {
        return failed;
      }
      var all := entries;
      ghost var live0 := live;
      stopped, entries, failed := true, map[], {};
      var todo := all.Keys;
      while todo != {}
        invariant todo <= all.Keys && stopped && entries == map[] && names == old(names)
        invariant live <= live0
        invariant forall id :: id in live0 && id !in live ==> id in dying
        invariant forall name :: name in all && name !in todo && all[name] in dying ==> all[name] !in live
        invariant forall name :: name in todo && name in all && all[name] in live0 ==> all[name] in live
        invariant failed == set name | name in all && name !in todo && all[name] in live0 && all[name] !in dying
      {
        var name := Pick(todo);
        todo := todo - {name};
        var ended := StopEntry(all[name], all[name] in dying);
        if !ended {
          failed := failed + {name};
        }
      }
      forall id | id in live ensures names[id] in failed {
        assert Get(all, names[id]) == Some(id);
      }
      forall name | name in failed ensures all[name] in live {
      }
      return failed;
    }
  }
}

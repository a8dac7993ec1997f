/**
 The persistence buffer and its worker.  The buffer keeps the newest snapshot of each signal
 under a version; the worker saves batches and acknowledges only what did not change meanwhile.
 */
module Persistence {
  import opened Wrappers
  import opened Numbers
  import opened Domain

  datatype Item = Item(version: nat, signal: Signal)
  type Items = map<nat, Item>

  function PutItem(items: Items, s: Signal): Items {
    items[s.id := Item(if s.id in items then items[s.id].version + 1 else 1, s)]
  }

  /** The item is still the one of the batch. */
  predicate Unchanged(items: Items, item: Item) {
    item.signal.id in items && items[item.signal.id].version == item.version
  }

  /** The batch holds this signal at this version. */
  predicate InBatch(batch: seq<Item>, id: nat, version: nat) {
    exists i :: 0 <= i < |batch| && batch[i].signal.id == id && batch[i].version == version
  }

  function AckItems(items: Items, batch: seq<Item>): Items {
    map id | id in items && !InBatch(batch, id, items[id].version) :: items[id]
  }

  /** Up to `limit` distinct items of the buffer, as they are. */
  predicate IsBatch(items: Items, limit: int, batch: seq<Item>) {
    && |batch| == (if limit <= 0 then 0 else MinInt(limit, |items|))
    && (forall i :: 0 <= i < |batch| ==> batch[i].signal.id in items && items[batch[i].signal.id] == batch[i])
    && (forall i, j :: 0 <= i < j < |batch| ==> batch[i].signal.id != batch[j].signal.id)
  }

  class SignalPersistenceBuffer {
    var items: map<nat, Item>
    var wake: bool
    var closed: bool

    /** Items are stored under their signal's identifier. */
    ghost predicate Valid()
      reads this
    {
      forall id :: id in items ==> items[id].signal.id == id
    }

    constructor ()
      ensures Valid() && items == map[] && !wake && !closed
    {
      items, wake, closed := map[], false, false;
    }

    /** Refused once closed; a snapshot without an identifier is ignored. */
    method Put(s: Signal) returns (ok: bool)
      requires Valid()
      modifies this`items, this`wake
      ensures Valid()
      ensures ok <==> s.id == 0 || !closed
      ensures items == if s.id == 0 || closed then old(items) else PutItem(old(items), s)
      ensures wake == (old(wake) || (s.id != 0 && !closed))
    {
      if s.id == 0 {
        return true;
      }
      if closed {
        return false;
      }
      var version := if s.id in items then items[s.id].version else 0;
      items := items[s.id := Item(version + 1, s)];
      wake := true;
      return true;
    }

    method SnapshotBatch(limit: int) returns (batch: seq<Item>)
      requires Valid()
      ensures IsBatch(items, limit, batch)
    {
      batch := [];
      if limit <= 0 {
        return;
      }
      var todo := items.Keys;
      while todo != {} && |batch| < limit
        invariant todo <= items.Keys && |batch| <= limit
        invariant |batch| + |todo| == |items|
        invariant forall i :: 0 <= i < |batch| ==>
          batch[i].signal.id in items && items[batch[i].signal.id] == batch[i] && batch[i].signal.id !in todo
        invariant forall i, j :: 0 <= i < j < |batch| ==> batch[i].signal.id != batch[j].signal.id
      {
        var id := Pick(todo);
        todo := todo - {id};
        batch := batch + [items[id]];
      }
    }

    method Ack(batch: seq<Item>)
      modifies this`items
      ensures items == AckItems(old(items), batch)
      ensures old(Valid()) ==> Valid()
    {
      var i := 0;
      while i < |batch|
        invariant 0 <= i <= |batch|
        invariant forall id :: Get(items, id) == Get(AckItems(old(items), batch[..i]), id)
      {
        ghost var before := items;
        if Unchanged(items, batch[i]) {
          items := items - {batch[i].signal.id};
        }
        AckOne(old(items), batch, i);
        SameMap(before, AckItems(old(items), batch[..i]));
        i := i + 1;
      }
      assert batch[..|batch|] == batch;
      SameMap(items, AckItems(old(items), batch));
    }

    method Close()
      modifies this`closed
      ensures closed
    {
      closed := true;
    }
  }

  lemma AckOne(items: Items, batch: seq<Item>, i: nat)
    requires i < |batch|
    ensures var now_ := AckItems(items, batch[..i]);
      AckItems(items, batch[..i + 1]) == if Unchanged(now_, batch[i]) then now_ - {batch[i].signal.id} else now_
  {
    forall id, version
      ensures InBatch(batch[..i + 1], id, version)
        <==> InBatch(batch[..i], id, version) || (batch[i].signal.id == id && batch[i].version == version)
    {
      InBatchSnoc(batch[..i], batch[i], id, version);
      assert batch[..i + 1] == batch[..i] + [batch[i]];
    }
  }

  lemma InBatchSnoc(batch: seq<Item>, item: Item, id: nat, version: nat)
    ensures InBatch(batch + [item], id, version)
       <==> InBatch(batch, id, version) || (item.signal.id == id && item.version == version)
  {
    var all := batch + [item];
    if InBatch(batch, id, version) {
      var i :| 0 <= i < |batch| && batch[i].signal.id == id && batch[i].version == version;
      assert all[i] == batch[i];
    }
    assert all[|batch|] == item;
  }

  /** The database: a save either takes effect or fails, and a failed save may have taken effect. */
  class SignalRepository {
    var rows: map<nat, Signal>

    constructor ()
      ensures rows == map[]
    {
      rows := map[];
    }

    method SaveSignal(s: Signal, reachable: bool) returns (ok: bool)
      modifies this
      ensures ok ==> rows == old(rows)[s.id := s]
      ensures !ok ==> rows == old(rows) || rows == old(rows)[s.id := s]
      ensures reachable ==> ok
    {
      var written: bool, answered: bool := *, *;
      if written || reachable {
        rows := rows[s.id := s];
      }
      ok := reachable || (written && answered);
    }
  }

  /** The buffered snapshots as rows. */
  function Signals(items: Items): map<nat, Signal> { map id | id in items :: items[id].signal }

  class BufferedPersistenceWorker {
    const buffer: SignalPersistenceBuffer
    const repo: SignalRepository

    constructor (buffer: SignalPersistenceBuffer, repo: SignalRepository)
      ensures this.buffer == buffer && this.repo == repo
    {
      this.buffer, this.repo := buffer, repo;
    }

    /** Saves a batch in order and stops at the first failure; `written` counts the rows that took effect. */
    method SaveBatch(batch: seq<Item>, reachable: bool) returns (ok: bool, ghost written: nat)
      modifies repo
      ensures written <= |batch| && repo.rows == SaveAll(old(repo.rows), batch[..written])
      ensures (reachable ==> ok) && (ok ==> written == |batch|)
    {
      written := 0;
      var n := 0;
      assert batch[..0] == [];
      while n < |batch|
        invariant 0 <= n <= |batch| && written == n
        invariant repo.rows == SaveAll(old(repo.rows), batch[..n])
      {
        ghost var before := repo.rows;
        var saved := repo.SaveSignal(batch[n].signal, reachable);
        assert batch[..n + 1][..n] == batch[..n];
        if !saved {
          written := if repo.rows == before then n else n + 1;
          return false, written;
        }
        n := n + 1;
        written := n;
      }
      return true, written;
    }

    /**
     Flushes with nobody writing, as after the buffer is closed.  It always stops: each batch
     saved makes the buffer smaller.  The buffer ends empty exactly when no save reported a failure,
     and then the repository holds every buffered snapshot; in any case no snapshot is in neither place.
     */
    method Flush(limit: int, reachable: bool) returns (ghost allSaved: bool)
      requires buffer.Valid() && limit > 0
      modifies buffer`items, repo
      ensures buffer.Valid()
      ensures (reachable ==> allSaved) && (allSaved <==> buffer.items == map[])
      ensures allSaved ==> repo.rows == old(repo.rows) + Signals(old(buffer.items))
      ensures forall id :: Flushed(old(buffer.items), buffer.items, old(repo.rows), repo.rows, id)
    {
      ghost var items0, rows0 := buffer.items, repo.rows;
      while true
        invariant buffer.Valid()
        invariant forall id :: Flushed(items0, buffer.items, rows0, repo.rows, id)
        decreases |buffer.items|
      {
        var batch := buffer.SnapshotBatch(limit);
        if |batch| == 0 {
          assert |buffer.items| == 0;
          forall id ensures Get(repo.rows, id) == Get(rows0 + Signals(items0), id) {
            assert Flushed(items0, buffer.items, rows0, repo.rows, id);
          }
          SameMap(repo.rows, rows0 + Signals(items0));
          return true;
        }
        ghost var items1, rows1 := buffer.items, repo.rows;
        var ok, written := SaveBatch(batch, reachable);
        if !ok {
          forall id ensures Flushed(items0, buffer.items, rows0, repo.rows, id) {
            SaveAllGet(rows1, batch[..written], id);
            assert Flushed(items0, items1, rows0, rows1, id);
          }
          return false;
        }
        assert batch[..written] == batch;
        buffer.Ack(batch);
        AckShrinks(items1, limit, batch);
        forall id ensures Flushed(items0, buffer.items, rows0, repo.rows, id) {
          SaveAllGet(rows1, batch, id);
          assert Flushed(items0, items1, rows0, rows1, id);
        }
      }
    }
  }

  /** A buffered item is still there or its snapshot is stored; rows of other signals are as before. */
  predicate Flushed(items0: Items, items: Items, rows0: map<nat, Signal>, rows: map<nat, Signal>, id: nat) {
    if id !in items0 then id !in items && Get(rows, id) == Get(rows0, id)
    else if id in items then items[id] == items0[id] && Get(rows, id) in {Get(rows0, id), Some(items0[id].signal)}
    else Get(rows, id) == Some(items0[id].signal)
  }

  function SaveAll(rows: map<nat, Signal>, batch: seq<Item>): map<nat, Signal> {
    if batch == [] then rows
    else
      var last := batch[|batch| - 1].signal;
      SaveAll(rows, batch[..|batch| - 1])[last.id := last]
  }

  lemma {:induction false} SaveAllGet(rows: map<nat, Signal>, batch: seq<Item>, id: nat)
    ensures Get(SaveAll(rows, batch), id) == Get(rows, id)
      || exists i :: 0 <= i < |batch| && batch[i].signal.id == id && Get(SaveAll(rows, batch), id) == Some(batch[i].signal)
    ensures (exists i :: 0 <= i < |batch| && batch[i].signal.id == id)
      ==> exists i :: 0 <= i < |batch| && batch[i].signal.id == id && Get(SaveAll(rows, batch), id) == Some(batch[i].signal)
  {
    if batch != [] {
      var front := batch[..|batch| - 1];
      SaveAllGet(rows, front, id);
      assert forall i :: 0 <= i < |front| ==> front[i] == batch[i];
    }
  }

  /** Acknowledging a batch that did not change removes exactly its items. */
  lemma AckShrinks(items: Items, limit: int, batch: seq<Item>)
    requires IsBatch(items, limit, batch) && batch != []
    ensures |AckItems(items, batch)| < |items|
    ensures forall id :: id in items && id !in AckItems(items, batch) ==> exists i :: 0 <= i < |batch| && batch[i].signal.id == id
    ensures forall i :: 0 <= i < |batch| ==> batch[i].signal.id !in AckItems(items, batch)
  {
    var after := AckItems(items, batch);
    var gone := batch[0].signal.id;
    assert gone in items && gone !in after;
    assert after.Keys <= items.Keys - {gone};
    Smaller(after.Keys, items.Keys - {gone});
  }

  lemma Smaller(a: set<nat>, b: set<nat>)
    requires a <= b
    ensures |a| <= |b|
  {
    assert b == a + (b - a);
  }
}

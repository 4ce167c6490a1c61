/** Read models (src/read_model/in_memory.rs): versioned bytes under "collection:id" keys, and
    the wrapper that locks a key from a read to the next write (src/read_model/queued.rs).
    Versions are unbounded here. */
module ReadModels {
  import opened Basics
  import opened Events
  import opened KeyedLocks

  type Bytes = seq<byte>

  datatype Stored = Stored(bytes: Bytes, version: nat)

  type Models = map<string, Stored>

  datatype ReadModelError =
    | NotFound
    | ConcurrencyConflict(expected: nat, actual: nat)

  function MakeKey(collection: string, id: string): string
  {
    collection + ":" + id
  }

  /** Two models share a key, and so a lock and an entry, exactly when they are the same or
      one collection's name continues the other's past a ':' that the id makes up for. */
  lemma KeysCollideIff(c: string, i: string, d: string, j: string)
    requires |c| <= |d|
    ensures MakeKey(c, i) == MakeKey(d, j) <==> (c == d && i == j) || exists x :: d == c + ":" + x && i == x + ":" + j
  {
    if MakeKey(c, i) == MakeKey(d, j) {
      assert d == (MakeKey(d, j))[..|d|] && c == MakeKey(c, i)[..|c|];
      if |c| == |d| {
        assert i == MakeKey(c, i)[|c| + 1..] && j == MakeKey(d, j)[|d| + 1..];
      } else {
        var x := d[|c| + 1..];
        assert d[|c|] == MakeKey(c, i)[|c|];
        assert d == c + ":" + x;
        assert i == MakeKey(c, i)[|c| + 1..] == MakeKey(d, j)[|c| + 1..];
        assert i == x + ":" + j;
      }
    } else {
      forall x | d == c + ":" + x && i == x + ":" + j ensures false {
        KeysCollideOn(c, x, j);
      }
    }
  }

  lemma KeysCollideOn(c: string, x: string, j: string)
    ensures MakeKey(c, x + ":" + j) == MakeKey(c + ":" + x, j)
  {
    assert c + ":" + (x + ":" + j) == (c + ":" + x) + ":" + j;
  }

  // ---- Writes ------------------------------------------------------------------------

  /** `Upsert` is also what a commit builder does with raw bytes. */
  datatype Write = Upsert(bytes: Bytes) | Insert(bytes: Bytes) | Update(bytes: Bytes, expected: nat) | Delete

  function NextVersion(models: Models, key: string): nat
  {
    if key in models then models[key].version + 1 else 1
  }

  /** The error a write is refused with, if any. */
  function Refusal(models: Models, key: string, w: Write): Option<ReadModelError>
  {
    match w
    case Insert(_) => if key in models then Some(ConcurrencyConflict(0, models[key].version)) else None
    case Update(_, expected) =>
      if key !in models then Some(NotFound)
      else if models[key].version != expected then Some(ConcurrencyConflict(expected, models[key].version))
      else None
    case _ => None
  }

  /** What an error tells: `NotFound` that an update found no entry, and a conflict the two
      versions, an insert expecting none. */
  lemma RefusalTells(models: Models, key: string, w: Write, expected: nat, actual: nat)
    ensures Refusal(models, key, w) == Some(NotFound) <==> w.Update? && key !in models
    ensures Refusal(models, key, w) == Some(ConcurrencyConflict(expected, actual)) <==>
      && key in models && models[key].version == actual
      && ((w.Insert? && expected == 0) || (w.Update? && w.expected == expected != actual))
  {
  }

  /** What a write leaves behind; a refused one changes nothing. */
  function Written(models: Models, key: string, w: Write): Models
  {
    if Refusal(models, key, w).Some? then models
    else if w.Delete? then models - {key}
    else models[key := Stored(w.bytes, NextVersion(models, key))]
  }

  class InMemoryReadModelStore {
    var storage: Models

    constructor ()
      ensures storage == map[]
    {
      storage := map[];
    }

    method SaveRaw(key: string, bytes: Bytes) returns (version: nat)
      modifies this
      ensures storage == Written(old(storage), key, Write.Upsert(bytes))
      ensures storage[key] == Stored(bytes, version)
    {
      version := if key in storage then storage[key].version + 1 else 1;
      storage := storage[key := Stored(bytes, version)];
    }

    method GetModel(collection: string, id: string) returns (found: Option<Stored>)
      ensures var key := MakeKey(collection, id);
        found == if key in storage then Some(storage[key]) else None
    {
      var key := MakeKey(collection, id);
      if key in storage {
        return Some(storage[key]);
      }
      found := None;
    }

    method Upsert(collection: string, id: string, bytes: Bytes) returns (version: nat)
      modifies this
      ensures storage == Written(old(storage), MakeKey(collection, id), Write.Upsert(bytes))
      ensures storage[MakeKey(collection, id)] == Stored(bytes, version)
    {
      var key := MakeKey(collection, id);
      version := 1;
      if key in storage {
        version := storage[key].version + 1;
      }
      storage := storage[key := Stored(bytes, version)];
    }

    method Insert(collection: string, id: string, bytes: Bytes) returns (result: Result<nat, ReadModelError>)
      modifies this
      ensures var key, w := MakeKey(collection, id), Write.Insert(bytes);
        && storage == Written(old(storage), key, w)
        && (result.Err? <==> Refusal(old(storage), key, w).Some?)
        && match result
           case Err(error) => Refusal(old(storage), key, w) == Some(error)
           case Ok(version) => key in storage && storage[key] == Stored(bytes, version) && version == 1
    {
      var key := MakeKey(collection, id);
      if key in storage {
        return Err(ConcurrencyConflict(0, storage[key].version));
      }
      storage := storage[key := Stored(bytes, 1)];
      result := Ok(1);
    }

    method Update(collection: string, id: string, bytes: Bytes, expected: nat) returns (result: Result<nat, ReadModelError>)
      modifies this
      ensures var key, w := MakeKey(collection, id), Write.Update(bytes, expected);
        && storage == Written(old(storage), key, w)
        && (result.Err? <==> Refusal(old(storage), key, w).Some?)
        && match result
           case Err(error) => Refusal(old(storage), key, w) == Some(error)
           case Ok(version) => key in storage && storage[key] == Stored(bytes, version) && version == expected + 1
    {
      var key := MakeKey(collection, id);
      if key !in storage {
        return Err(NotFound);
      }
      var actual := storage[key].version;
      if actual != expected {
        return Err(ConcurrencyConflict(expected, actual));
      }
      storage := storage[key := Stored(bytes, actual + 1)];
      result := Ok(actual + 1);
    }

    method Delete(collection: string, id: string) returns (removed: bool)
      modifies this
      ensures storage == Written(old(storage), MakeKey(collection, id), Write.Delete)
      ensures removed == (MakeKey(collection, id) in old(storage))
    {
      var key := MakeKey(collection, id);
      removed := key in storage;
      storage := storage - {key};
    }
  }

  /** A read takes the key's lock; a write that succeeds gives it back, whoever has it. */
  class QueuedReadModelStore {
    const inner: InMemoryReadModelStore
    const locks: LockTable

    constructor (inner: InMemoryReadModelStore)
      ensures this.inner == inner && locks.Valid() && fresh(locks) && fresh(locks.manager) && locks.held == {}
    {
      this.inner := inner;
      locks := new LockTable();
    }

    method GetModel(collection: string, id: string, wakeUps: seq<bool>) returns (found: Option<Option<Stored>>)
      requires locks.Valid()
      modifies locks, locks.manager, locks.manager.locks.Values
      ensures locks.Valid() && fresh(locks.manager.locks.Values - old(locks.manager.locks.Values))
      ensures var key := MakeKey(collection, id);
        && locks.held == old(locks.held) + {key}
        && found.Some? == GetsThrough(old(locks.held), key, wakeUps)
        && (found.Some? ==> found.value == if key in inner.storage then Some(inner.storage[key]) else None)
    {
      var acquired := locks.Acquire(MakeKey(collection, id), wakeUps);
      if !acquired {
        return None;
      }
      var model := inner.GetModel(collection, id);
      found := Some(model);
    }

    method Apply(collection: string, id: string, w: Write) returns (refusal: Option<ReadModelError>)
      requires locks.Valid()
      modifies inner, locks, locks.manager, locks.manager.locks.Values
      ensures locks.Valid() && fresh(locks.manager.locks.Values - old(locks.manager.locks.Values))
      ensures var key := MakeKey(collection, id);
        && refusal == Refusal(old(inner.storage), key, w)
        && inner.storage == Written(old(inner.storage), key, w)
        && locks.held == if refusal.None? then old(locks.held) - {key} else old(locks.held)
    {
      refusal := None;
      match w {
        case Upsert(bytes) =>
          var _ := inner.Upsert(collection, id, bytes);
        case Insert(bytes) =>
          var result := inner.Insert(collection, id, bytes);
          if result.Err? { refusal := Some(result.error); }
        case Update(bytes, expected) =>
          var result := inner.Update(collection, id, bytes, expected);
          if result.Err? { refusal := Some(result.error); }
        case Delete =>
          var _ := inner.Delete(collection, id);
      }
      if refusal.None? {
        locks.Unlock(MakeKey(collection, id));
      }
    }
  }
}

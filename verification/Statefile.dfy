/**
 Shipping the state database: fetch restores it, push puts a history copy and then copies that
 over the canonical key, rollback copies any history object over it. Every call to the bucket
 may fail, and the scratch files are gone whichever way a call ends.
 */
module Statefile {
  import opened Common
  import opened Tables
  import opened Protocol

  /** The object store, which answers or raises. */
  class Store {
    var objects: Objects

    constructor (objects: Objects)
      ensures this.objects == objects
    {
      this.objects := objects;
    }

    method Get(key: string) returns (r: Result<Option<Tables>, string>)
      ensures r.Ok? ==> r.value == if key in objects then Some(objects[key]) else None
    {
      var fails := MayFail();
      r := if fails then Raised("R2 download failed") else Ok(if key in objects then Some(objects[key]) else None);
    }

    /** A call that raises may have stored its object all the same; `stored` says whether it did. */
    method Put(key: string, t: Tables) returns (ok: bool, ghost stored: bool)
      modifies this
      ensures ok ==> stored
      ensures objects == if stored then old(objects)[key := t] else old(objects)
    {
      var lost := MayFail();
      var late := MayFail();
      ok, stored := !lost && !late, !lost;
      if !lost {
        objects := objects[key := t];
      }
    }

    /** A server-side copy; a missing source raises, and so may a copy that was made. */
    method Copy(source: string, target: string) returns (ok: bool, ghost stored: bool)
      modifies this
      ensures ok ==> stored
      ensures stored ==> source in old(objects)
      ensures objects == if stored then old(objects)[target := old(objects)[source]] else old(objects)
    {
      var lost := MayFail();
      var late := MayFail();
      lost := lost || source !in objects;
      ok, stored := !lost && !late, !lost;
      if !lost {
        objects := objects[target := objects[source]];
      }
    }

    method AnyHistory() returns (r: Result<bool, string>)
      ensures r.Ok? ==> (r.value <==> HasHistory(objects))
    {
      var fails := MayFail();
      r := if fails then Raised("R2 listing failed") else Ok(exists key :: key in objects.Keys && IsHistoryKey(key));
    }
  }

  datatype Scratch = Encrypted | Compressed | Snapshot

  /** The working directory: the local database, if there is one, and the scratch files around it. */
  class WorkDir {
    var database: Option<Tables>
    var scratch: set<Scratch>

    constructor ()
      ensures database == None && scratch == {}
    {
      database := None;
      scratch := {};
    }
  }

  datatype Shipment = NothingPut | PutOnly | Shipped

  /** Restores the database. A missing object beside history is refused, never an empty mirror. */
  method Fetch(store: Store, dir: WorkDir) returns (r: Result<Restore, string>)
    requires dir.scratch == {}
    modifies dir
    ensures dir.scratch == {}
    ensures r.Ok? ==> r.value == FetchState(store.objects) && r.value != LostState
    ensures r.Ok? && r.value.Restored? ==> dir.database == Some(r.value.tables)
    ensures !(r.Ok? && r.value.Restored?) ==> dir.database == old(dir.database)
    ensures FetchState(store.objects) == LostState ==> r.Raised?
  {
    dir.scratch := dir.scratch + {Encrypted};
    var got := store.Get(STATE_KEY);
    if got.Raised? {
      r := Raised(got.error);
    } else if got.value.None? {
      var listed := store.AnyHistory();
      if listed.Raised? {
        r := Raised(listed.error);
      } else if listed.value {
        r := Raised("state object is missing but history exists");
      } else {
        var unreachable := MayFail();
        r := if unreachable then Raised("R2 bucket is not reachable") else Ok(NoState);
      }
    } else {
      dir.scratch := dir.scratch + {Compressed};
      var undecipherable := MayFail();
      if undecipherable {
        r := Raised("age could not decrypt the state");
      } else {
        dir.database := got.value;
        r := Ok(Restored(got.value.value));
      }
      dir.scratch := dir.scratch - {Compressed};
    }
    dir.scratch := dir.scratch - {Encrypted};
  }

  /**
   Puts a history copy, then copies it over the canonical key: never the other way round. `how` is
   what reached the bucket, which a push that raised does not know.
   */
  method Push(store: Store, dir: WorkDir, db: Tables, name: string) returns (ok: bool, ghost how: Shipment)
    requires dir.scratch == {}
    modifies store, dir
    ensures dir.scratch == {} && dir.database == old(dir.database)
    ensures ok ==> how == Shipped
    ensures how == NothingPut ==> store.objects == old(store.objects)
    ensures how == PutOnly ==> store.objects == old(store.objects)[HistoryKey(name) := db]
    ensures how == Shipped ==> store.objects == old(store.objects)[HistoryKey(name) := db][STATE_KEY := db]
  {
    ok, how := false, NothingPut;
    dir.scratch := dir.scratch + {Snapshot};
    var unreadable := MayFail();
    if !unreadable {
      dir.scratch := dir.scratch + {Compressed};
      dir.scratch := dir.scratch + {Encrypted};
      ghost var stored, copied;
      ok, stored := store.Put(HistoryKey(name), db);
      how := if stored then PutOnly else NothingPut;
      if ok {
        ok, copied := store.Copy(HistoryKey(name), STATE_KEY);
        how := if copied then Shipped else PutOnly;
      }
    }
    dir.scratch := dir.scratch - {Snapshot, Compressed, Encrypted};
  }

  method Rollback(store: Store, historyKey: string) returns (ok: bool)
    modifies store
    ensures ok ==> historyKey in old(store.objects)
    ensures ok ==> FetchState(store.objects) == Restored(old(store.objects)[historyKey])
    ensures store.objects == old(store.objects)
      || (historyKey in old(store.objects) && FetchState(store.objects) == Restored(old(store.objects)[historyKey]))
    ensures forall key :: key != STATE_KEY ==>
      (key in store.objects <==> key in old(store.objects))
      && (key in store.objects ==> store.objects[key] == old(store.objects)[key])
  {
    ghost var stored;
    ok, stored := store.Copy(historyKey, STATE_KEY);
  }

  /** What was pushed is what a later fetch restores, and what it replaced stays reachable. */
  lemma PushThenFetch(objects: Objects, db: Tables, name: string)
    ensures var after := objects[HistoryKey(name) := db][STATE_KEY := db];
      FetchState(after) == Restored(db) && HasHistory(after)
      && FetchState(after - {STATE_KEY}) == LostState
  {
    HistoryKeyIsOne(name);
    var after := objects[HistoryKey(name) := db][STATE_KEY := db];
    assert HistoryKey(name) in after && HistoryKey(name) in after - {STATE_KEY};
  }
}

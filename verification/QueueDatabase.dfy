/** The store and the queue, and the requests the poller makes to them, run one after another. */
module QueueDatabase {
  import opened Prelude
  import opened WriteProtocol
  import opened QueueMerge

  /** Rows for the same document are the same row. */
  predicate Functional(rows: seq<Entry>)
  {
    forall i, j :: 0 <= i < |rows| && 0 <= j < |rows| && rows[i].key == rows[j].key ==> rows[i] == rows[j]
  }

  function PutAll(store: Store, rows: seq<Entry>): Store
    requires forall i :: 0 <= i < |rows| ==> rows[i].document.Some?
  {
    if rows == [] then store
    else PutAll(store, rows[..|rows| - 1])[rows[|rows| - 1].key := rows[|rows| - 1].document.value]
  }

  lemma {:induction false} PutAllEffect(store: Store, rows: seq<Entry>, k: DocKey)
    requires Functional(rows) && forall i :: 0 <= i < |rows| ==> rows[i].document.Some?
    ensures forall i :: 0 <= i < |rows| && rows[i].key == k ==> Lookup(PutAll(store, rows), k) == rows[i].document
    ensures (forall i :: 0 <= i < |rows| ==> rows[i].key != k) ==> Lookup(PutAll(store, rows), k) == Lookup(store, k)
  {
    if rows != [] {
      PutAllEffect(store, rows[..|rows| - 1], k);
    }
  }

  /** The row would replace what is stored. */
  predicate Wins(store: Store, e: Entry)
  {
    e.document.Some? && (e.key in store ==> store[e.key].ts < e.document.value.ts)
  }

  /** What one request does to one document. */
  ghost predicate ChunkEffect(before: Store, after: Store, queue: map<nat, Entry>, rows: seq<Entry>)
  {
    && (forall i :: 0 <= i < |rows| ==>
          Lookup(after, rows[i].key) ==
          if rows[i].qid in queue then Merge(Lookup(before, rows[i].key), rows[i].document)
          else Lookup(before, rows[i].key))
    && forall k :: (forall i :: 0 <= i < |rows| ==> rows[i].key != k) ==> Lookup(after, k) == Lookup(before, k)
  }

  /** Writing the winning rows among those still queued is the request's whole effect. */
  lemma WritesAreChunkEffect(before: Store, queue: map<nat, Entry>, rows: seq<Entry>, written: seq<Entry>)
    requires Functional(rows) && forall i :: 0 <= i < |rows| ==> rows[i].document.Some?
    requires forall e :: e in written <==> e in rows && e.qid in queue && Wins(before, e)
    ensures (forall i :: 0 <= i < |written| ==> written[i].document.Some?)
    ensures ChunkEffect(before, PutAll(before, written), queue, rows)
  {
    assert forall i :: 0 <= i < |written| ==> written[i] in rows;
    assert Functional(written);
    var after := PutAll(before, written);
    forall i | 0 <= i < |rows|
      ensures Lookup(after, rows[i].key) ==
              if rows[i].qid in queue then Merge(Lookup(before, rows[i].key), rows[i].document)
              else Lookup(before, rows[i].key)
    {
      PutAllEffect(before, written, rows[i].key);
      if rows[i].qid in queue && Wins(before, rows[i]) {
        assert rows[i] in written;
      } else {
        assert forall j :: 0 <= j < |written| ==> written[j].key != rows[i].key;
      }
    }
    forall k | forall i :: 0 <= i < |rows| ==> rows[i].key != k ensures Lookup(after, k) == Lookup(before, k) {
      PutAllEffect(before, written, k);
    }
  }

  /** Only the payload of the stored document has to change. */
  predicate Patchable(store: Store, e: Entry, needsVectors: (Doc, Doc) -> bool)
  {
    e.document.Some? && e.key in store && !needsVectors(e.document.value, store[e.key])
  }

  class Database {
    var store: Store
    var queue: map<nat, Entry>

    constructor (store: Store, queue: map<nat, Entry>)
      ensures this.store == store && this.queue == queue
    {
      this.store, this.queue := store, queue;
    }

    method DeleteFromQueue(rows: seq<Entry>)
      modifies this`queue
      ensures queue == old(queue) - (set e | e in rows :: e.qid)
    {
      queue := queue - (set e | e in rows :: e.qid);
    }

    /** A row without its document cannot be retried. */
    method MarkFailed(e: Entry)
      modifies this`queue
      ensures queue == if e.qid in old(queue)
                       then old(queue)[e.qid := old(queue)[e.qid].(status := FailedRow, tries := e.tries + 1)]
                       else old(queue)
    {
      if e.qid in queue {
        queue := queue[e.qid := queue[e.qid].(status := FailedRow, tries := e.tries + 1)];
      }
    }

    method PutDocuments(rows: seq<Entry>)
      requires forall i :: 0 <= i < |rows| ==> rows[i].document.Some?
      modifies this`store
      ensures store == PutAll(old(store), rows)
    {
      assert rows[..0] == [];
      for i := 0 to |rows|
        invariant store == PutAll(old(store), rows[..i])
      {
        assert rows[..i + 1][..i] == rows[..i];
        store := store[rows[i].key := rows[i].document.value];
      }
      assert rows[..|rows|] == rows;
    }

    /** Documents that are stale, to be patched, and to be vectorized. */
    method Partition(rows: seq<Entry>, needsVectors: (Doc, Doc) -> bool)
      returns (skipped: seq<Entry>, toPatch: seq<Entry>, toVectorize: seq<Entry>)
      requires forall i :: 0 <= i < |rows| ==> rows[i].document.Some?
      ensures forall e :: e in skipped <==> e in rows && !Wins(store, e)
      ensures forall e :: e in toPatch <==> e in rows && Wins(store, e) && Patchable(store, e, needsVectors)
      ensures forall e :: e in toVectorize <==> e in rows && Wins(store, e) && !Patchable(store, e, needsVectors)
    {
      skipped, toPatch, toVectorize := [], [], [];
      for n := 0 to |rows|
        invariant forall e :: e in skipped <==> e in rows[..n] && !Wins(store, e)
        invariant forall e :: e in toPatch <==> e in rows[..n] && Wins(store, e) && Patchable(store, e, needsVectors)
        invariant forall e :: e in toVectorize <==> e in rows[..n] && Wins(store, e) && !Patchable(store, e, needsVectors)
      {
        var e := rows[n];
        assert rows[..n + 1] == rows[..n] + [e];
        if e.key in store && e.document.value.ts <= store[e.key].ts {
          skipped := skipped + [e];
        } else if e.key in store && !needsVectors(e.document.value, store[e.key]) {
          toPatch := toPatch + [e];
        } else {
          toVectorize := toVectorize + [e];
        }
      }
      assert rows[..|rows|] == rows;
    }

    /** Rows that left the queue since they were claimed are not written. */
    method StillQueued(rows: seq<Entry>) returns (kept: seq<Entry>, drained: set<string>)
      ensures forall e :: e in kept <==> e in rows && e.qid in queue
      ensures drained == set e | e in rows && e.qid !in queue :: e.key.id
    {
      kept, drained := [], {};
      for i := 0 to |rows|
        invariant forall e :: e in kept <==> e in rows[..i] && e.qid in queue
        invariant drained == set e | e in rows[..i] && e.qid !in queue :: e.key.id
      {
        assert rows[..i + 1] == rows[..i] + [rows[i]];
        if rows[i].qid in queue {
          kept := kept + [rows[i]];
        } else {
          drained := drained + {rows[i].key.id};
        }
      }
      assert rows[..|rows|] == rows;
    }

    /**
      One bulk upsert request: re-verify the rows, partition, patch, add.  The documents of
      rows that are gone are reported as drained and not written; the others are merged.
      */
    method UpsertChunk(rows: seq<Entry>, needsVectors: (Doc, Doc) -> bool)
      returns (skipped: set<string>, drained: set<string>)
      requires Functional(rows) && forall i :: 0 <= i < |rows| ==> rows[i].document.Some?
      modifies this`store
      ensures ChunkEffect(old(store), store, queue, rows)
      ensures drained == set e | e in rows && e.qid !in queue :: e.key.id
      ensures skipped == set e | e in rows && e.qid in queue && !Wins(old(store), e) :: e.key.id
    {
      var kept: seq<Entry>;
      kept, drained := StillQueued(rows);
      var stale, toPatch, toVectorize := Partition(kept, needsVectors);
      skipped := set e | e in stale :: e.key.id;
      WritesAreChunkEffect(store, queue, rows, toPatch + toVectorize);
      PutAllConcat(store, toPatch, toVectorize);
      PutDocuments(toPatch);
      PutDocuments(toVectorize);
    }
  }

  lemma {:induction false} PutAllConcat(store: Store, a: seq<Entry>, b: seq<Entry>)
    requires forall i :: 0 <= i < |a + b| ==> (a + b)[i].document.Some?
    ensures forall i :: 0 <= i < |a| ==> a[i].document.Some?
    ensures forall i :: 0 <= i < |b| ==> b[i].document.Some?
    ensures PutAll(store, a + b) == PutAll(PutAll(store, a), b)
  {
    CarriedParts(a, b);
    if b == [] {
      assert a + b == a;
    } else {
      var n := |b| - 1;
      assert (a + b)[..|a| + n] == a + b[..n] && (a + b)[|a| + n] == b[n];
      PutAllConcat(store, a, b[..n]);
    }
  }

  lemma CarriedParts(a: seq<Entry>, b: seq<Entry>)
    requires forall i :: 0 <= i < |a + b| ==> (a + b)[i].document.Some?
    ensures forall i :: 0 <= i < |a| ==> a[i].document.Some?
    ensures forall i :: 0 <= i < |b| ==> b[i].document.Some?
  {
    assert forall i :: 0 <= i < |a| ==> a[i] == (a + b)[i];
    assert forall i :: 0 <= i < |b| ==> b[i] == (a + b)[|a| + i];
  }
}

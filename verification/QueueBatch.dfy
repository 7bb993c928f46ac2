/** One claimed batch, from the split into upserts and deletes to the last acknowledgement. */
module QueueBatch {
  import opened Prelude
  import opened WriteProtocol
  import opened QueueMerge
  import opened QueueDatabase
  import opened QueuePoller

  // ------------------------------------------------------------------ one collection

  function Qids(rows: seq<Entry>): set<nat>
  {
    set e | e in rows :: e.qid
  }

  /** Each row is in the queue under its own id, and no row is listed twice. */
  ghost predicate Claimed(queue: map<nat, Entry>, rows: seq<Entry>)
  {
    && (forall e :: e in rows ==> e.qid in queue && queue[e.qid] == e)
    && (forall e :: multiset(rows)[e] <= 1)
  }

  lemma WinnersFunctional(winners: seq<Entry>, collection: string)
    requires WorksOf(winners, collection) && Ascending(winners)
    ensures Functional(winners)
  {
    forall i, j | 0 <= i < |winners| && 0 <= j < |winners| && winners[i].key == winners[j].key
      ensures winners[i] == winners[j]
    {
      Lex.Irreflexive(winners[i].key.id);
    }
  }

  /** Winners and superseded rows are different queue rows. */
  lemma WinnersSurvive(queue: map<nat, Entry>, rows: seq<Entry>, winners: seq<Entry>, superseded: seq<Entry>)
    requires Claimed(queue, rows) && multiset(winners) + multiset(superseded) == multiset(rows)
    ensures Qids(rows) == Qids(winners) + Qids(superseded) && Qids(winners) !! Qids(superseded)
    ensures forall e :: e in winners ==> e.qid in queue
  {
    assert forall e :: e in winners ==> e in multiset(rows);
    assert forall e :: e in superseded ==> e in multiset(rows);
    assert forall e :: e in rows ==> e in multiset(winners) + multiset(superseded);
    forall a, b | a in winners && b in superseded ensures a.qid != b.qid {
      assert a in rows && b in rows;
      assert a in multiset(winners) && b in multiset(superseded);
    }
  }

  /** The store after the chunks outside `left` were written. */
  ghost predicate ChunksDone(before: Store, after: Store, queue: map<nat, Entry>, winners: seq<Entry>, left: set<nat>)
  {
    && (forall i :: 0 <= i < |winners| ==>
          Lookup(after, winners[i].key) ==
          if i / CHUNK_SIZE !in left && winners[i].qid in queue
          then Merge(Lookup(before, winners[i].key), winners[i].document)
          else Lookup(before, winners[i].key))
    && forall k :: !HasKey(winners, k) ==> Lookup(after, k) == Lookup(before, k)
  }

  function Chunk(winners: seq<Entry>, c: nat): seq<Entry>
    requires c * CHUNK_SIZE < |winners|
  {
    winners[c * CHUNK_SIZE..if (c + 1) * CHUNK_SIZE < |winners| then (c + 1) * CHUNK_SIZE else |winners|]
  }

  lemma ChunkDone(before: Store, mid: Store, after: Store, queue: map<nat, Entry>, winners: seq<Entry>,
                  left: set<nat>, c: nat)
    requires Functional(winners) && OneRowPerId(winners) && c in left && c * CHUNK_SIZE < |winners|
    requires ChunksDone(before, mid, queue, winners, left)
    requires ChunkEffect(mid, after, queue, Chunk(winners, c))
    ensures ChunksDone(before, after, queue, winners, left - {c})
  {
    var lo := c * CHUNK_SIZE;
    var chunk := Chunk(winners, c);
    assert forall j :: 0 <= j < |chunk| ==> chunk[j] == winners[lo + j];
    forall i | 0 <= i < |winners|
      ensures Lookup(after, winners[i].key) ==
              if i / CHUNK_SIZE !in left - {c} && winners[i].qid in queue
              then Merge(Lookup(before, winners[i].key), winners[i].document)
              else Lookup(before, winners[i].key)
    {
      if i / CHUNK_SIZE == c {
        assert chunk[i - lo] == winners[i];
      } else {
        forall j | 0 <= j < |chunk| ensures chunk[j].key != winners[i].key {
          assert (lo + j) / CHUNK_SIZE == c;
          if lo + j < i { assert winners[lo + j].key.id != winners[i].key.id; }
          else { assert winners[i].key.id != winners[lo + j].key.id; }
        }
      }
    }
    forall k | !HasKey(winners, k) ensures Lookup(after, k) == Lookup(before, k) {
      forall j | 0 <= j < |chunk| ensures chunk[j].key != k { assert chunk[j] == winners[lo + j]; }
    }
  }

  lemma AscendingDistinct(winners: seq<Entry>)
    requires Ascending(winners)
    ensures OneRowPerId(winners)
  {
    forall i, j | 0 <= i < j < |winners| ensures winners[i].key.id != winners[j].key.id {
      Lex.Irreflexive(winners[i].key.id);
      assert Lex.Less(winners[i].key.id, winners[j].key.id);
    }
  }

  function Below(n: nat): (r: set<nat>)
    ensures forall c :: c in r <==> 0 <= c < n
  {
    if n == 0 then {} else Below(n - 1) + {n - 1}
  }

  /** The winners are cut into chunks that finish in any order. */
  method BulkUpsert(db: Database, winners: seq<Entry>, collection: string, needsVectors: (Doc, Doc) -> bool)
    returns (drained: set<string>)
    requires WorksOf(winners, collection) && Ascending(winners)
    modifies db`store
    ensures ChunksDone(old(db.store), db.store, db.queue, winners, {})
    ensures (forall i :: 0 <= i < |winners| ==> winners[i].qid in db.queue) ==> drained == {}
  {
    WinnersFunctional(winners, collection);
    AscendingDistinct(winners);
    var n := (|winners| + CHUNK_SIZE - 1) / CHUNK_SIZE;
    var left := Below(n);
    drained := {};
    while left != {}
      invariant left <= Below(n)
      invariant ChunksDone(old(db.store), db.store, db.queue, winners, left)
      invariant (forall i :: 0 <= i < |winners| ==> winners[i].qid in db.queue) ==> drained == {}
      decreases |left|
    {
      var c :| c in left;
      ghost var mid := db.store;
      var chunk := Chunk(winners, c);
      assert forall j :: 0 <= j < |chunk| ==> chunk[j] == winners[c * CHUNK_SIZE + j];
      var skipped, gone := db.UpsertChunk(chunk, needsVectors);
      drained := drained + gone;
      ChunkDone(old(db.store), mid, db.store, db.queue, winners, left, c);
      left := left - {c};
    }
  }

  /** What the upserts of one collection do to the store. */
  ghost predicate CollectionMerged(before: Store, after: Store, works: seq<Entry>, collection: string)
  {
    forall k: DocKey :: Lookup(after, k) ==
      if k.collection == collection then Merge(Lookup(before, k), Candidate(works, k)) else Lookup(before, k)
  }

  /** The winners are exactly the documents the works offer. */
  ghost predicate Represents(winners: seq<Entry>, works: seq<Entry>, collection: string)
  {
    && (forall i :: 0 <= i < |winners| ==> Candidate(works, winners[i].key) == winners[i].document)
    && (forall k: DocKey :: k.collection == collection && Candidate(works, k).Some? ==> HasKey(winners, k))
  }

  method ChooseWinners(works: seq<Entry>, collection: string) returns (winners: seq<Entry>, superseded: seq<Entry>)
    requires WorksOf(works, collection)
    ensures WorksOf(winners, collection) && Ascending(winners) && Represents(winners, works, collection)
    ensures multiset(winners) + multiset(superseded) == multiset(works)
    ensures forall e :: e in superseded ==> exists w :: w in winners && QueuePoller.NoOlder(w, e)
  {
    var sorted := SortWorks(works, collection);
    winners, superseded := SelectWinners(sorted, collection);
  }

  lemma WinnersMerge(before: Store, after: Store, queue: map<nat, Entry>, works: seq<Entry>,
                     winners: seq<Entry>, collection: string)
    requires WorksOf(winners, collection) && Represents(winners, works, collection)
    requires ChunksDone(before, after, queue, winners, {})
    requires forall e :: e in winners ==> e.qid in queue
    ensures CollectionMerged(before, after, works, collection)
  {
    forall k: DocKey
      ensures Lookup(after, k) ==
              if k.collection == collection then Merge(Lookup(before, k), Candidate(works, k)) else Lookup(before, k)
    {
      if HasKey(winners, k) {
        var i :| 0 <= i < |winners| && winners[i].key == k;
        assert winners[i] in winners;
      }
    }
  }

  /** Rows reported as drained are left alone; all others are acknowledged. */
  method Acknowledge(winners: seq<Entry>, drained: set<string>) returns (toDelete: seq<Entry>)
    ensures forall e :: e in toDelete <==> e in winners && e.key.id !in drained
  {
    toDelete := [];
    for i := 0 to |winners|
      invariant forall e :: e in toDelete <==> e in winners[..i] && e.key.id !in drained
    {
      assert winners[..i + 1] == winners[..i] + [winners[i]];
      if winners[i].key.id !in drained {
        toDelete := toDelete + [winners[i]];
      }
    }
    assert winners[..|winners|] == winners;
  }

  /** Write the winners, then acknowledge them. */
  method WriteWinners(db: Database, ghost works: seq<Entry>, winners: seq<Entry>, collection: string,
                      needsVectors: (Doc, Doc) -> bool)
    requires WorksOf(winners, collection) && Ascending(winners) && Represents(winners, works, collection)
    requires forall e :: e in winners ==> e.qid in db.queue
    modifies db
    ensures CollectionMerged(old(db.store), db.store, works, collection)
    ensures db.queue == old(db.queue) - Qids(winners)
  {
    var drained := BulkUpsert(db, winners, collection, needsVectors);
    WinnersMerge(old(db.store), db.store, db.queue, works, winners, collection);
    var toDelete := Acknowledge(winners, drained);
    assert Qids(toDelete) == Qids(winners);
    db.DeleteFromQueue(toDelete);
  }

  /** Drop superseded rows, then handle the winners. */
  method ProcessCollection(db: Database, works: seq<Entry>, collection: string, needsVectors: (Doc, Doc) -> bool)
    requires WorksOf(works, collection) && Claimed(db.queue, works)
    modifies db
    ensures CollectionMerged(old(db.store), db.store, works, collection)
    ensures db.queue == old(db.queue) - Qids(works)
  {
    var winners, superseded := ChooseWinners(works, collection);
    WinnersSurvive(db.queue, works, winners, superseded);
    db.DeleteFromQueue(superseded);
    assert forall e :: e in winners ==> e.qid in Qids(winners);
    WriteWinners(db, works, winners, collection, needsVectors);
  }
}

/**
  What one batch of claimed queue rows should do to a document, as a timestamp merge, and
  that it does not depend on the order in which the rows were claimed.
  */
module QueueMerge {
  import opened Prelude
  import opened WriteProtocol

  datatype Operation = UpsertOp | DeleteOp

  datatype Status = Queued | Requeued | FailedRow

  datatype Entry = Entry(qid: nat, key: DocKey, op: Operation, ts: int, document: Option<Doc>,
                         status: Status, tries: nat)

  /** An upsert row that still has its document. */
  predicate Live(e: Entry)
  {
    e.op.UpsertOp? && e.document.Some?
  }

  /** Rows are queued with the document's own timestamp. */
  predicate WellFormed(e: Entry)
  {
    Live(e) ==> e.document.value.ts == e.ts
  }

  /** The newer of two candidates; on a tie the later one. */
  function Newer(a: Option<Doc>, b: Option<Doc>): Option<Doc>
  {
    if b.None? || (a.Some? && b.value.ts < a.value.ts) then a else b
  }

  function Offer(e: Entry, k: DocKey): Option<Doc>
  {
    if Live(e) && e.key == k then e.document else None
  }

  /** The document a list of rows offers for `k`: greatest timestamp, last row on ties. */
  function Candidate(rows: seq<Entry>, k: DocKey): Option<Doc>
  {
    if rows == [] then None
    else Newer(Candidate(rows[..|rows| - 1], k), Offer(rows[|rows| - 1], k))
  }

  /** A stored document is replaced only by a strictly newer one. */
  function Merge(stored: Option<Doc>, incoming: Option<Doc>): Option<Doc>
  {
    if incoming.None? || (stored.Some? && incoming.value.ts <= stored.value.ts) then stored else incoming
  }

  function DeleteOne(doc: Option<Doc>, e: Entry, k: DocKey): Option<Doc>
  {
    if e.op.DeleteOp? && e.key == k && doc.Some? && doc.value.ts < e.ts then None else doc
  }

  /** What is left after the delete rows ran in order. */
  function AfterDeletes(doc: Option<Doc>, rows: seq<Entry>, k: DocKey): Option<Doc>
  {
    if rows == [] then doc
    else DeleteOne(AfterDeletes(doc, rows[..|rows| - 1], k), rows[|rows| - 1], k)
  }

  /** The merge a batch computes for one document. */
  function Merged(stored: Option<Doc>, rows: seq<Entry>, k: DocKey): Option<Doc>
  {
    AfterDeletes(Merge(stored, Candidate(rows, k)), rows, k)
  }

  /** A stored timestamp, or a live upsert for `k`: what competes with the deletes. */
  ghost predicate Competes(stored: Option<Doc>, rows: seq<Entry>, k: DocKey, ts: int)
  {
    || (stored.Some? && stored.value.ts == ts)
    || exists e :: e in rows && Offer(e, k).Some? && Offer(e, k).value.ts == ts
  }

  // ------------------------------------------------------------------ sequences of rows

  lemma {:induction false} CandidateConcat(a: seq<Entry>, b: seq<Entry>, k: DocKey)
    ensures Candidate(a + b, k) == Newer(Candidate(a, k), Candidate(b, k))
  {
    if b == [] {
      assert a + b == a;
    } else {
      CandidateConcat(a, b[..|b| - 1], k);
      assert (a + b)[..|a + b| - 1] == a + b[..|b| - 1];
    }
  }

  lemma CandidatePush(rows: seq<Entry>, e: Entry, k: DocKey)
    ensures Candidate(rows + [e], k) == Newer(Candidate(rows, k), Offer(e, k))
  {
    assert (rows + [e])[..|rows|] == rows;
  }

  lemma {:induction false} CandidateIsMax(rows: seq<Entry>, k: DocKey)
    ensures Candidate(rows, k).None? <==> forall e :: e in rows ==> Offer(e, k).None?
    ensures Candidate(rows, k).Some? ==> exists e :: e in rows && Offer(e, k) == Candidate(rows, k)
    ensures forall e :: e in rows && Offer(e, k).Some? ==>
              Candidate(rows, k).Some? && Offer(e, k).value.ts <= Candidate(rows, k).value.ts
  {
    if rows != [] {
      var front, last := rows[..|rows| - 1], rows[|rows| - 1];
      CandidateIsMax(front, k);
      assert rows == front + [last];
      assert forall e :: e in rows <==> e in front || e == last;
    }
  }

  lemma DeletesPush(doc: Option<Doc>, rows: seq<Entry>, e: Entry, k: DocKey)
    ensures AfterDeletes(doc, rows + [e], k) == DeleteOne(AfterDeletes(doc, rows, k), e, k)
  {
    assert (rows + [e])[..|rows|] == rows;
  }

  /** A document survives a list of deletes exactly when none of them is later than it. */
  lemma {:induction false} DeletesEffect(doc: Option<Doc>, rows: seq<Entry>, k: DocKey)
    ensures AfterDeletes(doc, rows, k) ==
            if doc.Some? && exists e :: e in rows && e.op.DeleteOp? && e.key == k && doc.value.ts < e.ts
            then None else doc
  {
    if rows != [] {
      var front, last := rows[..|rows| - 1], rows[|rows| - 1];
      DeletesEffect(doc, front, k);
      assert rows == front + [last];
      assert forall e :: e in rows <==> e in front || e == last;
    }
  }

  // ------------------------------------------------------------------ results

  /**
    The batch is a timestamp merge: the document is present afterwards exactly when the
    largest of the stored and upserted timestamps is at least every delete timestamp, and
    then it is stored at that largest timestamp.
    */
  lemma MergedIsMaximum(stored: Option<Doc>, rows: seq<Entry>, k: DocKey, top: int)
    requires Competes(stored, rows, k, top) && forall ts :: Competes(stored, rows, k, ts) ==> ts <= top
    ensures Merged(stored, rows, k).Some? <==>
            forall e :: e in rows && e.op.DeleteOp? && e.key == k ==> e.ts <= top
    ensures Merged(stored, rows, k).Some? ==> Merged(stored, rows, k).value.ts == top
  {
    CandidateIsMax(rows, k);
    var m := Merge(stored, Candidate(rows, k));
    if stored.Some? { assert Competes(stored, rows, k, stored.value.ts); }
    if Candidate(rows, k).Some? { assert Competes(stored, rows, k, Candidate(rows, k).value.ts); }
    assert m.Some? && m.value.ts == top;
    DeletesEffect(m, rows, k);
  }

  /** With nothing stored and nothing upserted there is nothing afterwards. */
  lemma MergedIsAbsent(stored: Option<Doc>, rows: seq<Entry>, k: DocKey)
    requires stored.None? && forall e :: e in rows ==> Offer(e, k).None?
    ensures Merged(stored, rows, k).None?
  {
    CandidateIsMax(rows, k);
    DeletesEffect(Merge(stored, Candidate(rows, k)), rows, k);
  }

  ghost function Stamp(d: Option<Doc>): Option<int>
  {
    if d.Some? then Some(d.value.ts) else None
  }

  /** Claim-order independence: any reordering of the claimed rows merges to the same timestamp. */
  lemma ClaimOrderIndependent(stored: Option<Doc>, rows: seq<Entry>, rows': seq<Entry>, k: DocKey)
    requires multiset(rows) == multiset(rows')
    ensures Stamp(Merged(stored, rows, k)) == Stamp(Merged(stored, rows', k))
  {
    assert forall e :: e in rows <==> e in multiset(rows);
    assert forall e :: e in rows' <==> e in multiset(rows');
    assert forall e :: e in rows <==> e in rows';
    CandidateIsMax(rows, k);
    CandidateIsMax(rows', k);
    DeletesEffect(Merge(stored, Candidate(rows, k)), rows, k);
    DeletesEffect(Merge(stored, Candidate(rows', k)), rows', k);
  }
}

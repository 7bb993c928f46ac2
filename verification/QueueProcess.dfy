/** Processing a whole claimed batch: what it leaves in the store and in the queue. */
module QueueProcess {
  import opened Prelude
  import opened WriteProtocol
  import opened QueueMerge
  import opened QueueDatabase
  import opened QueuePoller
  import opened QueueBatch

  // ------------------------------------------------------------------ splitting the claim

  ghost predicate SplitOf(upserts: seq<Entry>, deletes: seq<Entry>, rows: seq<Entry>)
  {
    && multiset(upserts) + multiset(deletes) == multiset(rows)
    && (forall e :: e in upserts ==> e.op.UpsertOp?)
    && (forall e :: e in deletes ==> e.op.DeleteOp?)
    && (forall k :: Candidate(upserts, k) == Candidate(rows, k))
    && (forall d, k :: AfterDeletes(d, deletes, k) == AfterDeletes(d, rows, k))
  }

  lemma SplitPush(upserts: seq<Entry>, deletes: seq<Entry>, rows: seq<Entry>, e: Entry)
    requires SplitOf(upserts, deletes, rows)
    ensures e.op.UpsertOp? ==> SplitOf(upserts + [e], deletes, rows + [e])
    ensures e.op.DeleteOp? ==> SplitOf(upserts, deletes + [e], rows + [e])
  {
    forall k ensures Candidate(rows + [e], k) == Newer(Candidate(rows, k), Offer(e, k)) { CandidatePush(rows, e, k); }
    forall k ensures Candidate(upserts + [e], k) == Newer(Candidate(upserts, k), Offer(e, k)) {
      CandidatePush(upserts, e, k);
    }
    forall d, k ensures AfterDeletes(d, rows + [e], k) == DeleteOne(AfterDeletes(d, rows, k), e, k) {
      DeletesPush(d, rows, e, k);
    }
    forall d, k ensures AfterDeletes(d, deletes + [e], k) == DeleteOne(AfterDeletes(d, deletes, k), e, k) {
      DeletesPush(d, deletes, e, k);
    }
  }

  /** The rows of one kind, in claim order. */
  function Only(rows: seq<Entry>, op: Operation): seq<Entry>
  {
    if rows == [] then []
    else
      var rest, last := Only(rows[..|rows| - 1], op), rows[|rows| - 1];
      if last.op == op then rest + [last] else rest
  }

  method Split(rows: seq<Entry>) returns (upserts: seq<Entry>, deletes: seq<Entry>)
    ensures upserts == Only(rows, UpsertOp) && deletes == Only(rows, DeleteOp)
    ensures SplitOf(upserts, deletes, rows)
  {
    upserts, deletes := [], [];
    assert rows[..0] == [];
    for i := 0 to |rows|
      invariant upserts == Only(rows[..i], UpsertOp) && deletes == Only(rows[..i], DeleteOp)
      invariant SplitOf(upserts, deletes, rows[..i])
    {
      assert rows[..i + 1] == rows[..i] + [rows[i]] && rows[..i + 1][..i] == rows[..i];
      SplitPush(upserts, deletes, rows[..i], rows[i]);
      match rows[i].op
      case UpsertOp => upserts := upserts + [rows[i]];
      case DeleteOp => deletes := deletes + [rows[i]];
    }
    assert rows[..|rows|] == rows;
  }

  // ------------------------------------------------------------------ grouping by collection

  function GroupAt(groups: map<string, seq<Entry>>, c: string): seq<Entry>
  {
    if c in groups then groups[c] else []
  }

  ghost predicate GroupsOf(groups: map<string, seq<Entry>>, upserts: seq<Entry>)
  {
    && GroupsWork(groups, upserts)
    && (forall k: DocKey :: Candidate(GroupAt(groups, k.collection), k) == Candidate(upserts, k))
    && (forall e :: e in upserts && Live(e) ==> e in GroupAt(groups, e.key.collection))
  }

  ghost predicate GroupsWork(groups: map<string, seq<Entry>>, upserts: seq<Entry>)
  {
    forall c :: c in groups ==> WorksOf(groups[c], c) && multiset(groups[c]) <= multiset(upserts)
  }

  predicate Missing(e: Entry)
  {
    e.op.UpsertOp? && e.document.None?
  }

  function Grouped(groups: map<string, seq<Entry>>, e: Entry): map<string, seq<Entry>>
  {
    if Live(e) then groups[e.key.collection := GroupAt(groups, e.key.collection) + [e]] else groups
  }

  lemma GroupWorks(groups: map<string, seq<Entry>>, upserts: seq<Entry>, e: Entry, c: string)
    requires WellFormed(e) && c in Grouped(groups, e)
    requires c in groups ==> WorksOf(groups[c], c) && multiset(groups[c]) <= multiset(upserts)
    ensures WorksOf(Grouped(groups, e)[c], c) && multiset(Grouped(groups, e)[c]) <= multiset(upserts + [e])
  {
    assert multiset(upserts + [e]) == multiset(upserts) + multiset{e};
    assert multiset(GroupAt(groups, c) + [e]) == multiset(GroupAt(groups, c)) + multiset{e};
  }

  lemma GroupPush(groups: map<string, seq<Entry>>, upserts: seq<Entry>, e: Entry)
    requires GroupsOf(groups, upserts) && WellFormed(e)
    ensures GroupsOf(Grouped(groups, e), upserts + [e])
  {
    var groups' := Grouped(groups, e);
    assert GroupsWork(groups', upserts + [e]) by {
      forall c | c in groups' ensures WorksOf(groups'[c], c) && multiset(groups'[c]) <= multiset(upserts + [e]) {
        GroupWorks(groups, upserts, e, c);
      }
    }
    forall k: DocKey ensures Candidate(GroupAt(groups', k.collection), k) == Candidate(upserts + [e], k) {
      GroupCandidate(groups, upserts, e, k);
    }
    forall x | x in upserts + [e] && Live(x) ensures x in GroupAt(groups', x.key.collection) {
      assert x in upserts || x == e;
      assert x in upserts ==> x in GroupAt(groups, x.key.collection);
    }
  }

  lemma GroupCandidate(groups: map<string, seq<Entry>>, upserts: seq<Entry>, e: Entry, k: DocKey)
    requires Candidate(GroupAt(groups, k.collection), k) == Candidate(upserts, k)
    ensures Candidate(GroupAt(Grouped(groups, e), k.collection), k) == Candidate(upserts + [e], k)
  {
    CandidatePush(upserts, e, k);
    CandidatePush(GroupAt(groups, k.collection), e, k);
  }

  predicate MissingRow(rows: seq<Entry>, q: nat)
  {
    exists i :: 0 <= i < |rows| && rows[i].qid == q && Missing(rows[i])
  }

  function FailIf(missing: bool, e: Entry): Entry
  {
    if missing then e.(status := FailedRow, tries := e.tries + 1) else e
  }

  /** Claimed rows without a document are marked failed; all others are untouched. */
  ghost predicate MissingFailed(before: map<nat, Entry>, after: map<nat, Entry>, rows: seq<Entry>)
  {
    && after.Keys == before.Keys
    && forall q :: q in before ==> after[q] == FailIf(MissingRow(rows, q), before[q])
  }

  lemma MissingPush(before: map<nat, Entry>, mid: map<nat, Entry>, after: map<nat, Entry>, rows: seq<Entry>, e: Entry)
    requires MissingFailed(before, mid, rows) && e.qid in before && before[e.qid] == e
    requires forall i :: 0 <= i < |rows| ==> rows[i].qid != e.qid
    requires after == if Missing(e) then mid[e.qid := mid[e.qid].(status := FailedRow, tries := e.tries + 1)] else mid
    ensures MissingFailed(before, after, rows + [e])
  {
    var rows' := rows + [e];
    forall q | q in before
      ensures after[q] == FailIf(MissingRow(rows', q), before[q])
    {
      assert MissingRow(rows', q) <==> MissingRow(rows, q) || (q == e.qid && Missing(e)) by {
        assert rows'[|rows|] == e;
        if MissingRow(rows, q) {
          var i :| 0 <= i < |rows| && rows[i].qid == q && Missing(rows[i]);
          assert rows'[i] == rows[i];
        }
      }
    }
  }

  predicate DistinctQids(rows: seq<Entry>)
  {
    forall i, j :: 0 <= i < j < |rows| ==> rows[i].qid != rows[j].qid
  }

  method GroupOne(db: Database, groups: map<string, seq<Entry>>, e: Entry,
                  ghost before: map<nat, Entry>, ghost rows: seq<Entry>)
    returns (groups': map<string, seq<Entry>>)
    requires GroupsOf(groups, rows) && MissingFailed(before, db.queue, rows)
    requires e.op.UpsertOp? && WellFormed(e) && e.qid in before && before[e.qid] == e
    requires forall i :: 0 <= i < |rows| ==> rows[i].qid != e.qid
    modifies db`queue
    ensures GroupsOf(groups', rows + [e]) && MissingFailed(before, db.queue, rows + [e])
  {
    GroupPush(groups, rows, e);
    groups' := Grouped(groups, e);
    MarkOne(db, e, before, rows);
  }

  /** A row without its document is marked failed. */
  method MarkOne(db: Database, e: Entry, ghost before: map<nat, Entry>, ghost rows: seq<Entry>)
    requires MissingFailed(before, db.queue, rows) && e.op.UpsertOp? && e.qid in before && before[e.qid] == e
    requires forall i :: 0 <= i < |rows| ==> rows[i].qid != e.qid
    modifies db`queue
    ensures MissingFailed(before, db.queue, rows + [e])
  {
    ghost var mid := db.queue;
    if e.document.None? {
      db.MarkFailed(e);
    }
    MissingPush(before, mid, db.queue, rows, e);
  }

  ghost predicate ClaimedUpserts(queue: map<nat, Entry>, upserts: seq<Entry>)
  {
    forall i :: 0 <= i < |upserts| ==>
      && upserts[i].op.UpsertOp? && WellFormed(upserts[i])
      && upserts[i].qid in queue && queue[upserts[i].qid] == upserts[i]
  }

  method GroupNext(db: Database, upserts: seq<Entry>, i: nat, groups: map<string, seq<Entry>>, ghost before: map<nat, Entry>)
    returns (groups': map<string, seq<Entry>>)
    requires i < |upserts| && DistinctQids(upserts) && ClaimedUpserts(before, upserts)
    requires GroupsOf(groups, upserts[..i]) && MissingFailed(before, db.queue, upserts[..i])
    modifies db`queue
    ensures GroupsOf(groups', upserts[..i + 1]) && MissingFailed(before, db.queue, upserts[..i + 1])
  {
    assert upserts[..i + 1] == upserts[..i] + [upserts[i]];
    groups' := GroupOne(db, groups, upserts[i], before, upserts[..i]);
  }

  method Group(db: Database, upserts: seq<Entry>) returns (groups: map<string, seq<Entry>>)
    requires DistinctQids(upserts) && ClaimedUpserts(db.queue, upserts)
    modifies db`queue
    ensures GroupsOf(groups, upserts)
    ensures MissingFailed(old(db.queue), db.queue, upserts)
  {
    groups := map[];
    ghost var before := db.queue;
    NoGroups(before);
    assert upserts[..0] == [];
    for i := 0 to |upserts|
      invariant GroupsOf(groups, upserts[..i]) && MissingFailed(before, db.queue, upserts[..i])
    {
      groups := GroupNext(db, upserts, i, groups, before);
    }
    assert upserts[..|upserts|] == upserts;
  }

  lemma NoGroups(queue: map<nat, Entry>)
    ensures GroupsOf(map[], []) && MissingFailed(queue, queue, [])
  {
  }

  // ------------------------------------------------------------------ upserts, collection by collection

  /** The collections outside `todo` have been merged, and their rows acknowledged. */
  ghost predicate GroupsDone(before: Store, after: Store, groups: map<string, seq<Entry>>, todo: set<string>)
  {
    forall k: DocKey :: Lookup(after, k) ==
      if k.collection in groups && k.collection !in todo
      then Merge(Lookup(before, k), Candidate(groups[k.collection], k)) else Lookup(before, k)
  }

  ghost function AckedQids(groups: map<string, seq<Entry>>, todo: set<string>): set<nat>
  {
    set c, e | c in groups && c !in todo && e in groups[c] :: e.qid
  }

  /** Rows of other collections are still queued: ids are distinct. */
  lemma StillClaimed(queue: map<nat, Entry>, groups: map<string, seq<Entry>>, todo: set<string>, c: string)
    requires c in todo && todo <= groups.Keys
    requires forall d :: d in groups ==> WorksOf(groups[d], d) && Claimed(queue, groups[d])
    ensures Claimed(queue - AckedQids(groups, todo), groups[c])
  {
    forall e | e in groups[c] ensures e.qid !in AckedQids(groups, todo) {
      if d, x :| d in groups && d !in todo && x in groups[d] && x.qid == e.qid {
        assert queue[x.qid] == x && queue[e.qid] == e;
        assert x.key.collection == d && e.key.collection == c;
      }
    }
  }

  method ProcessUpserts(db: Database, groups: map<string, seq<Entry>>, needsVectors: (Doc, Doc) -> bool)
    requires forall c :: c in groups ==> WorksOf(groups[c], c) && Claimed(db.queue, groups[c])
    modifies db
    ensures GroupsDone(old(db.store), db.store, groups, {})
    ensures db.queue == old(db.queue) - AckedQids(groups, {})
  {
    var todo := groups.Keys;
    assert AckedQids(groups, todo) == {};
    while todo != {}
      invariant todo <= groups.Keys
      invariant GroupsDone(old(db.store), db.store, groups, todo)
      invariant db.queue == old(db.queue) - AckedQids(groups, todo)
      decreases |todo|
    {
      var c :| c in todo;
      StillClaimed(old(db.queue), groups, todo, c);
      ghost var mid := db.store;
      ProcessCollection(db, groups[c], c, needsVectors);
      assert AckedQids(groups, todo - {c}) == AckedQids(groups, todo) + Qids(groups[c]);
      assert CollectionMerged(mid, db.store, groups[c], c);
      todo := todo - {c};
    }
  }

  // ------------------------------------------------------------------ deletes

  predicate CancelledBy(d: Entry, e: Entry)
  {
    d.op.DeleteOp? && e.op.UpsertOp? && e.key == d.key && e.ts <= d.ts
  }

  /** A queued delete: re-verify the row, cancel pending upserts, delete, acknowledge. */
  method ProcessDelete(db: Database, d: Entry)
    requires d.op.DeleteOp?
    modifies db
    ensures d.qid !in old(db.queue) ==> db.store == old(db.store) && db.queue == old(db.queue)
    ensures d.qid in old(db.queue) ==>
              && (forall k :: Lookup(db.store, k) == DeleteOne(Lookup(old(db.store), k), d, k))
              && db.queue == map q | q in old(db.queue) && q != d.qid && !CancelledBy(d, old(db.queue)[q]) :: old(db.queue)[q]
  {
    if d.qid !in db.queue {
      return;
    }
    var existing := Lookup(db.store, d.key);
    db.queue := map q | q in db.queue && !CancelledBy(d, db.queue[q]) :: db.queue[q];
    if existing.Some? && existing.value.ts < d.ts {
      db.store := db.store - {d.key};
    }
    db.DeleteFromQueue([d]);
  }

  ghost predicate DeletesDone(before: Store, after: Store, deletes: seq<Entry>)
  {
    forall k :: Lookup(after, k) == AfterDeletes(Lookup(before, k), deletes, k)
  }

  predicate Cleared(rows: seq<Entry>, e: Entry)
  {
    exists i :: 0 <= i < |rows| && rows[i].op.DeleteOp? && (rows[i].qid == e.qid || CancelledBy(rows[i], e))
  }

  ghost predicate QueueCleared(before: map<nat, Entry>, after: map<nat, Entry>, deletes: seq<Entry>)
  {
    && (forall q :: q in after <==> q in before && !Cleared(deletes, before[q]))
    && (forall q :: q in after ==> after[q] == before[q])
  }

  lemma ClearedPush(rows: seq<Entry>, d: Entry, e: Entry)
    ensures Cleared(rows + [d], e) <==> Cleared(rows, e) || (d.op.DeleteOp? && (d.qid == e.qid || CancelledBy(d, e)))
  {
    var rows' := rows + [d];
    assert rows'[|rows|] == d;
    if Cleared(rows, e) {
      var i :| 0 <= i < |rows| && rows[i].op.DeleteOp? && (rows[i].qid == e.qid || CancelledBy(rows[i], e));
      assert rows'[i] == rows[i];
    }
  }

  predicate QueueKeyed(queue: map<nat, Entry>)
  {
    forall q :: q in queue ==> queue[q].qid == q
  }

  method ProcessDeletes(db: Database, deletes: seq<Entry>)
    requires QueueKeyed(db.queue) && DistinctQids(deletes)
    requires forall i :: 0 <= i < |deletes| ==>
               deletes[i].op.DeleteOp? && deletes[i].qid in db.queue && db.queue[deletes[i].qid] == deletes[i]
    modifies db
    ensures DeletesDone(old(db.store), db.store, deletes)
    ensures QueueCleared(old(db.queue), db.queue, deletes)
  {
    assert deletes[..0] == [];
    for i := 0 to |deletes|
      invariant DeletesDone(old(db.store), db.store, deletes[..i])
      invariant QueueCleared(old(db.queue), db.queue, deletes[..i])
    {
      var d := deletes[i];
      assert deletes[..i + 1] == deletes[..i] + [d];
      ghost var midStore, midQueue := db.store, db.queue;
      assert d.qid in midQueue by {
        assert forall j :: 0 <= j < i ==> deletes[..i][j] == deletes[j] && deletes[j].qid != d.qid;
      }
      ProcessDelete(db, d);
      forall k ensures Lookup(db.store, k) == AfterDeletes(Lookup(old(db.store), k), deletes[..i + 1], k) {
        DeletesPush(Lookup(old(db.store), k), deletes[..i], d, k);
      }
      forall q | q in old(db.queue)
        ensures q in db.queue <==> !Cleared(deletes[..i + 1], old(db.queue)[q])
      {
        ClearedPush(deletes[..i], d, old(db.queue)[q]);
      }
    }
    assert deletes[..|deletes|] == deletes;
  }

  // ------------------------------------------------------------------ the batch

  /** The rows are in the queue as claimed, and no row was claimed twice. */
  ghost predicate BatchOf(queue: map<nat, Entry>, rows: seq<Entry>)
  {
    && QueueKeyed(queue)
    && (forall e :: e in rows ==> WellFormed(e) && e.qid in queue && queue[e.qid] == e)
    && (forall e :: multiset(rows)[e] <= 1)
  }

  lemma CountTwo(rows: seq<Entry>, i: nat, j: nat)
    requires i < j < |rows| && rows[i] == rows[j]
    ensures multiset(rows)[rows[i]] >= 2
  {
    assert rows == rows[..j] + [rows[j]] + rows[j + 1..];
    assert rows[i] in rows[..j];
  }

  lemma PartDistinct(queue: map<nat, Entry>, rows: seq<Entry>, part: seq<Entry>)
    requires BatchOf(queue, rows) && multiset(part) <= multiset(rows)
    ensures DistinctQids(part) && Claimed(queue, part)
    ensures forall e :: e in part ==> e in rows
  {
    forall e | e in part ensures e in rows { assert e in multiset(part); }
    forall i, j | 0 <= i < j < |part| ensures part[i].qid != part[j].qid {
      assert part[i] in rows && part[j] in rows;
      if part[i] == part[j] { CountTwo(part, i, j); }
    }
  }

  /** Grouped rows are untouched by the failure marks, which go to other rows. */
  lemma GroupsClaimed(queue: map<nat, Entry>, queue': map<nat, Entry>, rows: seq<Entry>, upserts: seq<Entry>,
                      groups: map<string, seq<Entry>>, c: string)
    requires BatchOf(queue, rows) && multiset(upserts) <= multiset(rows)
    requires GroupsOf(groups, upserts) && MissingFailed(queue, queue', upserts) && c in groups
    ensures WorksOf(groups[c], c) && Claimed(queue', groups[c])
  {
    PartDistinct(queue, rows, upserts);
    PartDistinct(queue, rows, groups[c]);
    forall e | e in groups[c] ensures e.qid in queue' && queue'[e.qid] == e {
      assert Live(e);
      assert e in multiset(groups[c]) && e in upserts;
    }
  }

  /** The batch removes this row: acknowledged, or cancelled by a delete of the batch. */
  ghost predicate Handled(rows: seq<Entry>, e: Entry)
  {
    (e in rows && Live(e)) || Cleared(rows, e)
  }

  lemma SplitMembers(upserts: seq<Entry>, deletes: seq<Entry>, rows: seq<Entry>)
    requires SplitOf(upserts, deletes, rows)
    ensures forall e :: e in upserts <==> e in rows && e.op.UpsertOp?
    ensures forall e :: e in deletes <==> e in rows && e.op.DeleteOp?
    ensures multiset(upserts) <= multiset(rows) && multiset(deletes) <= multiset(rows)
  {
    forall e ensures e in rows <==> e in upserts || e in deletes {
      assert e in rows <==> e in multiset(rows);
    }
  }

  /** The upsert rows acknowledged are exactly the claimed ones that carry a document. */
  lemma AckedExact(queue: map<nat, Entry>, rows: seq<Entry>, upserts: seq<Entry>, deletes: seq<Entry>,
                   groups: map<string, seq<Entry>>, q: nat)
    requires BatchOf(queue, rows) && SplitOf(upserts, deletes, rows) && GroupsOf(groups, upserts) && q in queue
    ensures q in AckedQids(groups, {}) <==> queue[q] in rows && Live(queue[q])
  {
    SplitMembers(upserts, deletes, rows);
    if q in AckedQids(groups, {}) {
      var c, e :| c in groups && e in groups[c] && e.qid == q;
      assert Live(e);
      assert e in multiset(groups[c]);
      assert e in multiset(upserts);
      assert e in rows;
    }
    if queue[q] in rows && Live(queue[q]) {
      var e := queue[q];
      assert e in GroupAt(groups, e.key.collection);
      assert e.qid == q;
    }
  }

  lemma ClearedExact(upserts: seq<Entry>, deletes: seq<Entry>, rows: seq<Entry>, e: Entry, e': Entry)
    requires SplitOf(upserts, deletes, rows)
    requires e.qid == e'.qid && e.key == e'.key && e.op == e'.op && e.ts == e'.ts
    ensures Cleared(deletes, e') <==> Cleared(rows, e)
  {
    SplitMembers(upserts, deletes, rows);
    if Cleared(deletes, e') {
      var i :| 0 <= i < |deletes| && deletes[i].op.DeleteOp? && (deletes[i].qid == e'.qid || CancelledBy(deletes[i], e'));
      assert deletes[i] in rows;
    }
    if Cleared(rows, e) {
      var i :| 0 <= i < |rows| && rows[i].op.DeleteOp? && (rows[i].qid == e.qid || CancelledBy(rows[i], e));
      assert rows[i] in deletes;
    }
  }

  lemma MissingExact(queue: map<nat, Entry>, rows: seq<Entry>, upserts: seq<Entry>, deletes: seq<Entry>, q: nat)
    requires BatchOf(queue, rows) && SplitOf(upserts, deletes, rows) && q in queue
    ensures MissingRow(upserts, q) <==> queue[q] in rows && Missing(queue[q])
  {
    SplitMembers(upserts, deletes, rows);
    if MissingRow(upserts, q) {
      var i :| 0 <= i < |upserts| && upserts[i].qid == q && Missing(upserts[i]);
      assert upserts[i] in rows;
    }
    if queue[q] in rows && Missing(queue[q]) {
      var i :| 0 <= i < |upserts| && upserts[i] == queue[q];
    }
  }

  /** What a row that stays looks like: marked failed if it was claimed without a document. */
  ghost function Kept(rows: seq<Entry>, e: Entry): Entry
  {
    FailIf(e in rows && Missing(e), e)
  }

  ghost predicate QueueAfter(before: map<nat, Entry>, after: map<nat, Entry>, rows: seq<Entry>)
  {
    && (forall q :: q in after <==> q in before && !Handled(rows, before[q]))
    && (forall q :: q in after ==> after[q] == Kept(rows, before[q]))
  }

  lemma QueueResult(q0: map<nat, Entry>, q1: map<nat, Entry>, q2: map<nat, Entry>, q3: map<nat, Entry>,
                    rows: seq<Entry>, upserts: seq<Entry>, deletes: seq<Entry>, groups: map<string, seq<Entry>>)
    requires BatchOf(q0, rows) && SplitOf(upserts, deletes, rows) && GroupsOf(groups, upserts)
    requires MissingFailed(q0, q1, upserts) && q2 == q1 - AckedQids(groups, {}) && QueueCleared(q2, q3, deletes)
    ensures QueueAfter(q0, q3, rows)
  {
    forall q | q in q0
      ensures q in q3 <==> !Handled(rows, q0[q])
      ensures q in q3 ==> q3[q] == Kept(rows, q0[q])
    {
      AckedExact(q0, rows, upserts, deletes, groups, q);
      MissingExact(q0, rows, upserts, deletes, q);
      ClearedExact(upserts, deletes, rows, q0[q], q1[q]);
    }
  }

  lemma StoreResult(s0: Store, s1: Store, s2: Store, rows: seq<Entry>, upserts: seq<Entry>, deletes: seq<Entry>,
                    groups: map<string, seq<Entry>>, k: DocKey)
    requires SplitOf(upserts, deletes, rows) && GroupsOf(groups, upserts)
    requires GroupsDone(s0, s1, groups, {}) && DeletesDone(s1, s2, deletes)
    ensures Lookup(s2, k) == Merged(Lookup(s0, k), rows, k)
  {
    assert Candidate(GroupAt(groups, k.collection), k) == Candidate(upserts, k);
  }

  /** The delete rows are still queued after the upserts were handled. */
  lemma DeletesClaimed(q0: map<nat, Entry>, q1: map<nat, Entry>, rows: seq<Entry>, upserts: seq<Entry>,
                       deletes: seq<Entry>, groups: map<string, seq<Entry>>)
    requires BatchOf(q0, rows) && SplitOf(upserts, deletes, rows) && GroupsOf(groups, upserts)
    requires MissingFailed(q0, q1, upserts)
    ensures DistinctQids(deletes) && QueueKeyed(q1 - AckedQids(groups, {}))
    ensures forall i :: 0 <= i < |deletes| ==>
              var q2 := q1 - AckedQids(groups, {});
              deletes[i].op.DeleteOp? && deletes[i].qid in q2 && q2[deletes[i].qid] == deletes[i]
  {
    SplitMembers(upserts, deletes, rows);
    PartDistinct(q0, rows, deletes);
    forall i | 0 <= i < |deletes|
      ensures deletes[i].op.DeleteOp? && deletes[i].qid in q1 && deletes[i].qid !in AckedQids(groups, {})
              && q1[deletes[i].qid] == deletes[i]
    {
      var d := deletes[i];
      assert d in deletes && d in rows;
      AckedExact(q0, rows, upserts, deletes, groups, d.qid);
      MissingExact(q0, rows, upserts, deletes, d.qid);
    }
  }

  /**
    One claimed batch, without failures or rivals.  Every document ends exactly as the
    timestamp merge of what was stored and the claimed rows; the queue loses the
    acknowledged rows and the upserts the deletes cancelled, and nothing else.
    */
  method ProcessBatch(db: Database, eligible: seq<Entry>, needsVectors: (Doc, Doc) -> bool)
    requires BatchOf(db.queue, eligible)
    modifies db
    ensures forall k :: Lookup(db.store, k) == Merged(Lookup(old(db.store), k), eligible, k)
    ensures QueueAfter(old(db.queue), db.queue, eligible)
  {
    ghost var s0, q0 := db.store, db.queue;
    var upserts, deletes := Split(eligible);
    SplitMembers(upserts, deletes, eligible);
    PartDistinct(db.queue, eligible, upserts);
    var groups := Group(db, upserts);
    ghost var q1 := db.queue;
    forall c | c in groups ensures WorksOf(groups[c], c) && Claimed(q1, groups[c]) {
      GroupsClaimed(q0, q1, eligible, upserts, groups, c);
    }
    ProcessUpserts(db, groups, needsVectors);
    ghost var s1, q2 := db.store, db.queue;
    DeletesClaimed(q0, q1, eligible, upserts, deletes, groups);
    ProcessDeletes(db, deletes);
    QueueResult(q0, q1, q2, db.queue, eligible, upserts, deletes, groups);
    forall k ensures Lookup(db.store, k) == Merged(Lookup(s0, k), eligible, k) {
      StoreResult(s0, s1, db.store, eligible, upserts, deletes, groups, k);
    }
  }
}

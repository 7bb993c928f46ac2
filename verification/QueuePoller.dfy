/**
  The poller's batch processing, run without failures or rivals: split the claimed rows,
  group upserts by collection, keep the newest row per document, write the winners in
  chunks, acknowledge, then run the deletes.
  */
module QueuePoller {
  import opened Prelude
  import opened WriteProtocol
  import opened QueueMerge
  import Lex

  // ------------------------------------------------------------------ order of the works

  /** The sort key: document id, then timestamp. */
  predicate Before(a: Entry, b: Entry)
  {
    Lex.Less(a.key.id, b.key.id) || (a.key.id == b.key.id && a.ts <= b.ts)
  }

  predicate Sorted(rows: seq<Entry>)
  {
    forall i, j :: 0 <= i < j < |rows| ==> Before(rows[i], rows[j])
  }

  /** All rows are live upserts of one collection. */
  predicate WorksOf(rows: seq<Entry>, collection: string)
  {
    forall i :: 0 <= i < |rows| ==> Live(rows[i]) && WellFormed(rows[i]) && rows[i].key.collection == collection
  }

  lemma BeforeTotal(a: Entry, b: Entry)
    ensures Before(a, b) || Before(b, a)
  {
    Lex.Trichotomy(a.key.id, b.key.id);
  }

  lemma BeforeTransitive(a: Entry, b: Entry, c: Entry)
    requires Before(a, b) && Before(b, c)
    ensures Before(a, c)
  {
    if Lex.Less(a.key.id, b.key.id) && Lex.Less(b.key.id, c.key.id) {
      Lex.Transitive(a.key.id, b.key.id, c.key.id);
    }
  }

  /** Moving a row in front of rows it may not precede does not change any candidate. */
  lemma InsertKeepsCandidate(a: seq<Entry>, e: Entry, b: seq<Entry>, k: DocKey)
    requires WorksOf(a, k.collection) && WorksOf([e], k.collection) && WorksOf(b, k.collection)
    requires forall i :: 0 <= i < |b| ==> !Before(b[i], e)
    ensures Candidate(a + [e] + b, k) == Candidate(a + b + [e], k)
  {
    CandidateConcat(a + [e], b, k);
    CandidateConcat(a, b, k);
    CandidatePush(a, e, k);
    CandidatePush(a + b, e, k);
    CandidateIsMax(b, k);
    if Offer(e, k).Some? && Candidate(b, k).Some? {
      var x :| x in b && Offer(x, k) == Candidate(b, k);
      assert e.ts < x.ts;
    }
  }

  /** The place of `e` in a sorted list: after every row that may precede it. */
  method Position(rows: seq<Entry>, e: Entry) returns (p: nat)
    requires Sorted(rows)
    ensures p <= |rows|
    ensures forall i :: 0 <= i < p ==> Before(rows[i], e)
    ensures forall i :: p <= i < |rows| ==> !Before(rows[i], e)
  {
    p := |rows|;
    while p > 0 && !Before(rows[p - 1], e)
      invariant p <= |rows|
      invariant forall i :: p <= i < |rows| ==> !Before(rows[i], e)
    {
      p := p - 1;
    }
    forall i | 0 <= i < p ensures Before(rows[i], e) {
      if i < p - 1 { BeforeTransitive(rows[i], rows[p - 1], e); }
    }
  }

  /** `sorted` is a sorted rearrangement of `works` that offers the same documents. */
  ghost predicate SortOf(sorted: seq<Entry>, works: seq<Entry>, collection: string)
  {
    && Sorted(sorted) && WorksOf(sorted, collection) && multiset(sorted) == multiset(works)
    && forall k: DocKey :: k.collection == collection ==> Candidate(sorted, k) == Candidate(works, k)
  }

  lemma InsertSorted(a: seq<Entry>, e: Entry, b: seq<Entry>)
    requires Sorted(a + b)
    requires forall i :: 0 <= i < |a| ==> Before(a[i], e)
    requires forall i :: 0 <= i < |b| ==> !Before(b[i], e)
    ensures Sorted(a + [e] + b)
  {
    var rows := a + [e] + b;
    forall i, j | 0 <= i < j < |rows| ensures Before(rows[i], rows[j]) {
      if i == |a| {
        BeforeTotal(e, b[j - |a| - 1]);
      } else if j == |a| {
        assert rows[i] == a[i];
      } else {
        var i', j' := if i < |a| then i else i - 1, if j < |a| then j else j - 1;
        assert rows[i] == (a + b)[i'] && rows[j] == (a + b)[j'];
      }
    }
  }

  lemma InsertWorks(a: seq<Entry>, e: Entry, b: seq<Entry>, collection: string)
    requires WorksOf(a + b, collection) && WorksOf([e], collection)
    ensures WorksOf(a + [e] + b, collection)
  {
    var rows := a + [e] + b;
    assert [e][0] == e;
    forall i | 0 <= i < |rows| ensures rows[i] == e || rows[i] == (a + b)[if i < |a| then i else i - 1] {
    }
  }

  lemma InsertCandidate(a: seq<Entry>, e: Entry, b: seq<Entry>, works: seq<Entry>, k: DocKey)
    requires WorksOf(a + b, k.collection) && WorksOf([e], k.collection) && Candidate(a + b, k) == Candidate(works, k)
    requires forall i :: 0 <= i < |b| ==> !Before(b[i], e)
    ensures Candidate(a + [e] + b, k) == Candidate(works + [e], k)
  {
    assert forall i :: 0 <= i < |a| ==> a[i] == (a + b)[i];
    assert forall i :: 0 <= i < |b| ==> b[i] == (a + b)[|a| + i];
    InsertKeepsCandidate(a, e, b, k);
    CandidatePush(a + b, e, k);
    CandidatePush(works, e, k);
  }

  lemma InsertKeeps(a: seq<Entry>, e: Entry, b: seq<Entry>, works: seq<Entry>, collection: string)
    requires SortOf(a + b, works, collection) && WorksOf([e], collection)
    requires forall i :: 0 <= i < |a| ==> Before(a[i], e)
    requires forall i :: 0 <= i < |b| ==> !Before(b[i], e)
    ensures SortOf(a + [e] + b, works + [e], collection)
  {
    InsertSorted(a, e, b);
    InsertWorks(a, e, b, collection);
    forall k: DocKey | k.collection == collection ensures Candidate(a + [e] + b, k) == Candidate(works + [e], k) {
      InsertCandidate(a, e, b, works, k);
    }
  }

  /** The rows with one id and one timestamp, in their order. */
  function Ties(rows: seq<Entry>, id: string, ts: int): seq<Entry>
  {
    if rows == [] then []
    else
      var rest, last := Ties(rows[..|rows| - 1], id, ts), rows[|rows| - 1];
      if last.key.id == id && last.ts == ts then rest + [last] else rest
  }

  /** Rows that the sort key does not tell apart keep their order. */
  ghost predicate Stable(sorted: seq<Entry>, works: seq<Entry>)
  {
    forall id: string, ts: int :: Ties(sorted, id, ts) == Ties(works, id, ts)
  }

  lemma {:induction false} TiesConcat(a: seq<Entry>, b: seq<Entry>, id: string, ts: int)
    ensures Ties(a + b, id, ts) == Ties(a, id, ts) + Ties(b, id, ts)
  {
    if b == [] {
      assert a + b == a;
    } else {
      TiesConcat(a, b[..|b| - 1], id, ts);
      assert (a + b)[..|a + b| - 1] == a + b[..|b| - 1];
    }
  }

  lemma {:induction false} NoTies(b: seq<Entry>, e: Entry)
    requires forall i :: 0 <= i < |b| ==> !Before(b[i], e)
    ensures Ties(b, e.key.id, e.ts) == []
  {
    if b != [] {
      NoTies(b[..|b| - 1], e);
    }
  }

  lemma TiesOne(e: Entry, id: string, ts: int)
    ensures Ties([e], id, ts) == if e.key.id == id && e.ts == ts then [e] else []
  {
    assert [e][..0] == [];
  }

  lemma InsertStable(a: seq<Entry>, e: Entry, b: seq<Entry>, works: seq<Entry>)
    requires Stable(a + b, works) && forall i :: 0 <= i < |b| ==> !Before(b[i], e)
    ensures Stable(a + [e] + b, works + [e])
  {
    forall id: string, ts: int ensures Ties(a + [e] + b, id, ts) == Ties(works + [e], id, ts) {
      TiesConcat(a + [e], b, id, ts);
      TiesConcat(a, [e], id, ts);
      TiesConcat(a, b, id, ts);
      TiesConcat(works, [e], id, ts);
      TiesOne(e, id, ts);
      NoTies(b, e);
      assert Ties(a + b, id, ts) == Ties(works, id, ts);
    }
  }

  /** One more row goes to its place. */
  method SortNext(works: seq<Entry>, i: nat, sorted: seq<Entry>, collection: string) returns (sorted': seq<Entry>)
    requires i < |works| && WorksOf(works, collection) && SortOf(sorted, works[..i], collection) && Stable(sorted, works[..i])
    ensures SortOf(sorted', works[..i + 1], collection) && Stable(sorted', works[..i + 1])
  {
    var p := Position(sorted, works[i]);
    assert sorted == sorted[..p] + sorted[p..];
    assert works[..i + 1] == works[..i] + [works[i]];
    InsertKeeps(sorted[..p], works[i], sorted[p..], works[..i], collection);
    InsertStable(sorted[..p], works[i], sorted[p..], works[..i]);
    sorted' := sorted[..p] + [works[i]] + sorted[p..];
  }

  /** A stable sort by id and timestamp. */
  method SortWorks(works: seq<Entry>, collection: string) returns (sorted: seq<Entry>)
    requires WorksOf(works, collection)
    ensures SortOf(sorted, works, collection) && Stable(sorted, works)
  {
    sorted := [];
    assert works[..0] == [];
    for i := 0 to |works|
      invariant SortOf(sorted, works[..i], collection) && Stable(sorted, works[..i])
    {
      sorted := SortNext(works, i, sorted, collection);
    }
    assert works[..|works|] == works;
  }

  // ------------------------------------------------------------------ winners

  predicate OneRowPerId(rows: seq<Entry>)
  {
    forall i, j :: 0 <= i < j < |rows| ==> rows[i].key.id != rows[j].key.id
  }

  predicate Ascending(rows: seq<Entry>)
  {
    forall i, j :: 0 <= i < j < |rows| ==> Lex.Less(rows[i].key.id, rows[j].key.id)
  }

  /** Row `w` makes row `e` redundant. */
  predicate NoOlder(w: Entry, e: Entry)
  {
    w.key == e.key && e.ts <= w.ts
  }

  /**
    `winners` holds one row per document of `rows`, the document's candidate; every other
    row is in `superseded` and is covered by a winner.
    */
  ghost predicate Selected(rows: seq<Entry>, winners: seq<Entry>, superseded: seq<Entry>, collection: string)
  {
    && WorksOf(winners, collection) && Ascending(winners)
    && multiset(winners) + multiset(superseded) == multiset(rows)
    && (forall e :: e in superseded ==> exists w :: w in winners && NoOlder(w, e))
    && (forall i :: 0 <= i < |winners| ==> Candidate(rows, winners[i].key) == winners[i].document)
    && (forall k: DocKey :: k.collection == collection && Candidate(rows, k).Some? ==> HasKey(winners, k))
  }

  predicate HasKey(rows: seq<Entry>, k: DocKey)
  {
    exists i :: 0 <= i < |rows| && rows[i].key == k
  }

  lemma SelectNew(rows: seq<Entry>, winners: seq<Entry>, superseded: seq<Entry>, collection: string, work: Entry)
    requires Selected(rows, winners, superseded, collection) && WorksOf([work], collection)
    requires forall i :: 0 <= i < |winners| ==> Lex.Less(winners[i].key.id, work.key.id)
    ensures Selected(rows + [work], winners + [work], superseded, collection)
  {
    var rows', winners' := rows + [work], winners + [work];
    assert [work][0] == work;
    Lex.Irreflexive(work.key.id);
    forall k ensures Candidate(rows', k) == Newer(Candidate(rows, k), Offer(work, k)) {
      CandidatePush(rows, work, k);
    }
    assert !HasKey(winners, work.key);
    forall e | e in superseded ensures exists w :: w in winners' && NoOlder(w, e) {
      var w :| w in winners && NoOlder(w, e);
      assert w in winners';
    }
    forall k: DocKey | k.collection == collection && Candidate(rows', k).Some? ensures HasKey(winners', k) {
      if k == work.key { assert winners'[|winners|].key == k; }
      else {
        var i :| 0 <= i < |winners| && winners[i].key == k;
        assert winners'[i].key == k;
      }
    }
  }

  /** Superseding the last winner by a newer row for the same document keeps every row covered. */
  lemma ReplaceCovers(winners: seq<Entry>, superseded: seq<Entry>, prev: Entry, work: Entry)
    requires NoOlder(work, prev)
    requires forall e :: e in superseded ==> exists w :: w in winners + [prev] && NoOlder(w, e)
    ensures forall e :: e in superseded + [prev] ==> exists w :: w in winners + [work] && NoOlder(w, e)
  {
    assert (winners + [work])[|winners|] == work;
    forall e | e in superseded + [prev] ensures exists w :: w in winners + [work] && NoOlder(w, e) {
      if e in superseded {
        var w :| w in winners + [prev] && NoOlder(w, e);
        if w in winners {
          assert w in winners + [work];
        } else {
          assert NoOlder(work, e);
        }
      }
    }
  }

  lemma ReplaceCandidates(rows: seq<Entry>, winners: seq<Entry>, prev: Entry, work: Entry, collection: string)
    requires WorksOf(winners + [prev], collection) && WorksOf([work], collection) && Ascending(winners + [prev])
    requires NoOlder(work, prev)
    requires forall i :: 0 <= i < |winners + [prev]| ==>
               Candidate(rows, (winners + [prev])[i].key) == (winners + [prev])[i].document
    ensures forall i :: 0 <= i < |winners + [work]| ==>
              Candidate(rows + [work], (winners + [work])[i].key) == (winners + [work])[i].document
  {
    assert [work][0] == work && (winners + [prev])[|winners|] == prev;
    Lex.Irreflexive(work.key.id);
    forall i | 0 <= i < |winners + [work]|
      ensures Candidate(rows + [work], (winners + [work])[i].key) == (winners + [work])[i].document
    {
      CandidatePush(rows, work, (winners + [work])[i].key);
      if i < |winners| {
        assert (winners + [prev])[i] == winners[i];
      }
    }
  }

  lemma ReplaceKeys(rows: seq<Entry>, winners: seq<Entry>, prev: Entry, work: Entry, k: DocKey)
    requires NoOlder(work, prev) && Candidate(rows + [work], k).Some?
    requires Candidate(rows, k).Some? ==> HasKey(winners + [prev], k)
    ensures HasKey(winners + [work], k)
  {
    CandidatePush(rows, work, k);
    if k == work.key {
      assert (winners + [work])[|winners|].key == k;
    } else {
      var i :| 0 <= i < |winners + [prev]| && (winners + [prev])[i].key == k;
      assert (winners + [work])[i].key == k;
    }
  }

  lemma SelectReplace(rows: seq<Entry>, winners: seq<Entry>, prev: Entry, superseded: seq<Entry>,
                      collection: string, work: Entry)
    requires Selected(rows, winners + [prev], superseded, collection) && WorksOf([work], collection)
    requires NoOlder(work, prev)
    ensures Selected(rows + [work], winners + [work], superseded + [prev], collection)
  {
    ReplaceCovers(winners, superseded, prev, work);
    ReplaceCandidates(rows, winners, prev, work, collection);
    ReplaceOrder(winners, prev, work, collection);
    forall k: DocKey | k.collection == collection && Candidate(rows + [work], k).Some?
      ensures HasKey(winners + [work], k)
    {
      ReplaceKeys(rows, winners, prev, work, k);
    }
  }

  lemma ReplaceOrder(winners: seq<Entry>, prev: Entry, work: Entry, collection: string)
    requires WorksOf(winners + [prev], collection) && Ascending(winners + [prev])
    requires WorksOf([work], collection) && NoOlder(work, prev)
    ensures WorksOf(winners + [work], collection) && Ascending(winners + [work])
  {
    assert (winners + [prev])[|winners|] == prev && [work][0] == work;
    assert forall i :: 0 <= i < |winners| ==> winners[i] == (winners + [prev])[i] == (winners + [work])[i];
  }

  lemma AllBelow(winners: seq<Entry>, work: Entry)
    requires Ascending(winners)
    requires winners != [] ==> Lex.Less(winners[|winners| - 1].key.id, work.key.id)
    ensures forall i :: 0 <= i < |winners| ==> Lex.Less(winners[i].key.id, work.key.id)
  {
    forall i | 0 <= i < |winners| ensures Lex.Less(winners[i].key.id, work.key.id) {
      if i < |winners| - 1 { Lex.Transitive(winners[i].key.id, winners[|winners| - 1].key.id, work.key.id); }
    }
  }

  /** Same document twice in one claim: the newer row replaces the last winner. */
  method AddWork(ghost rows: seq<Entry>, winners: seq<Entry>, superseded: seq<Entry>, collection: string, work: Entry)
    returns (winners': seq<Entry>, superseded': seq<Entry>)
    requires Selected(rows, winners, superseded, collection) && WorksOf([work], collection)
    requires winners != [] ==> Before(winners[|winners| - 1], work)
    ensures Selected(rows + [work], winners', superseded', collection)
    ensures winners' != [] && winners'[|winners'| - 1] == work
  {
    var m := |winners|;
    if m > 0 && winners[m - 1].key.id == work.key.id {
      Lex.Irreflexive(work.key.id);
      assert winners == winners[..m - 1] + [winners[m - 1]] && [work][0] == work;
      SelectReplace(rows, winners[..m - 1], winners[m - 1], superseded, collection, work);
      return winners[..m - 1] + [work], superseded + [winners[m - 1]];
    }
    AllBelow(winners, work);
    SelectNew(rows, winners, superseded, collection, work);
    return winners + [work], superseded;
  }

  /** The first `n` rows have been dealt with. */
  ghost predicate SelectedTo(sorted: seq<Entry>, n: nat, winners: seq<Entry>, superseded: seq<Entry>, collection: string)
    requires n <= |sorted|
  {
    && Selected(sorted[..n], winners, superseded, collection)
    && (winners != [] ==> n > 0 && winners[|winners| - 1] == sorted[n - 1])
  }

  method SelectNext(sorted: seq<Entry>, n: nat, winners: seq<Entry>, superseded: seq<Entry>, collection: string)
    returns (winners': seq<Entry>, superseded': seq<Entry>)
    requires n < |sorted| && Sorted(sorted) && WorksOf(sorted, collection)
    requires SelectedTo(sorted, n, winners, superseded, collection)
    ensures SelectedTo(sorted, n + 1, winners', superseded', collection)
  {
    assert sorted[..n + 1] == sorted[..n] + [sorted[n]];
    winners', superseded' := AddWork(sorted[..n], winners, superseded, collection, sorted[n]);
  }

  method SelectWinners(sorted: seq<Entry>, collection: string) returns (winners: seq<Entry>, superseded: seq<Entry>)
    requires Sorted(sorted) && WorksOf(sorted, collection)
    ensures Selected(sorted, winners, superseded, collection)
  {
    winners, superseded := [], [];
    assert sorted[..0] == [];
    for n := 0 to |sorted|
      invariant SelectedTo(sorted, n, winners, superseded, collection)
    {
      winners, superseded := SelectNext(sorted, n, winners, superseded, collection);
    }
    assert sorted[..|sorted|] == sorted;
  }
}

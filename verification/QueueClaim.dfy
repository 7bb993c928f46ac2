/** What the poller selects from its claimed rows is what the write protocol lets it claim. */
module QueueClaim {
  import opened Prelude
  import opened WriteProtocol
  import opened QueueMerge
  import opened QueuePoller
  import Lex

  /** The claimed rows are live upsert rows of the queue. */
  predicate RowsOf(s: State, rows: seq<Entry>)
  {
    forall i :: 0 <= i < |rows| ==> RowOf(s, rows[i])
  }

  predicate RowOf(s: State, e: Entry)
  {
    && Live(e) && WellFormed(e) && e.qid in s.queue && e.qid in s.ledger
    && s.ledger[e.qid] == UpsertRow(e.key, e.document.value)
  }

  function Tickets(rows: seq<Entry>): seq<nat>
  {
    seq(|rows|, i requires 0 <= i < |rows| => rows[i].qid)
  }

  function TicketSet(rows: seq<Entry>): set<nat>
  {
    set i | 0 <= i < |rows| :: rows[i].qid
  }

  lemma SelectedRows(rows: seq<Entry>, winners: seq<Entry>, superseded: seq<Entry>, collection: string, e: Entry)
    requires Selected(rows, winners, superseded, collection)
    ensures e in winners || e in superseded <==> e in rows
  {
    assert e in multiset(winners) + multiset(superseded) <==> e in multiset(rows);
  }

  /** Every superseded row has a winner that makes it redundant. */
  lemma SupersededBy(s: State, rows: seq<Entry>, winners: seq<Entry>, superseded: seq<Entry>, collection: string, e: Entry)
    requires RowsOf(s, rows) && Selected(rows, winners, superseded, collection) && e in superseded
    ensures e.qid in s.queue && exists w :: w in Tickets(winners) && Supersedes(s.ledger, w, e.qid)
  {
    var w :| w in winners && NoOlder(w, e);
    SelectedRows(rows, winners, superseded, collection, e);
    SelectedRows(rows, winners, superseded, collection, w);
    assert RowOf(s, e) && RowOf(s, w);
    var i :| 0 <= i < |winners| && winners[i] == w;
    assert Tickets(winners)[i] == w.qid && Supersedes(s.ledger, w.qid, e.qid);
  }

  lemma WinnersApart(s: State, rows: seq<Entry>, winners: seq<Entry>, superseded: seq<Entry>, collection: string)
    requires RowsOf(s, rows) && Selected(rows, winners, superseded, collection)
    ensures UpsertIds(s, Tickets(winners), collection)
    ensures forall i :: 0 <= i < |winners| ==> Tickets(winners)[i] in s.queue
    ensures forall a, b :: 0 <= a < b < |winners| ==>
              s.ledger[Tickets(winners)[a]].key.id != s.ledger[Tickets(winners)[b]].key.id
  {
    forall i | 0 <= i < |winners| ensures RowOf(s, winners[i]) {
      SelectedRows(rows, winners, superseded, collection, winners[i]);
    }
    forall a, b | 0 <= a < b < |winners| ensures winners[a].key.id != winners[b].key.id {
      Lex.Irreflexive(winners[a].key.id);
    }
  }

  /** The claim of the winners and the superseded rows is a step of the write protocol, and it is of all rows. */
  lemma SelectionIsClaim(s: State, j: nat, rows: seq<Entry>, winners: seq<Entry>, superseded: seq<Entry>, collection: string)
    requires RowsOf(s, rows) && Selected(rows, winners, superseded, collection) && j !in s.jobs
    ensures Enabled(s, ClaimUpserts(j, collection, Tickets(winners), TicketSet(superseded)))
    ensures forall e :: e in rows <==> e in winners || e in superseded
  {
    WinnersApart(s, rows, winners, superseded, collection);
    forall q | q in TicketSet(superseded)
      ensures q in s.queue && exists w :: w in Tickets(winners) && Supersedes(s.ledger, w, q)
    {
      var i :| 0 <= i < |superseded| && superseded[i].qid == q;
      SupersededBy(s, rows, winners, superseded, collection, superseded[i]);
    }
    forall e ensures e in rows <==> e in winners || e in superseded {
      SelectedRows(rows, winners, superseded, collection, e);
    }
  }

  /** The poller's own path there: sort the works, select the winners. */
  method ClaimWorks(ghost s: State, ghost j: nat, works: seq<Entry>, collection: string)
    returns (winners: seq<Entry>, superseded: seq<Entry>)
    requires RowsOf(s, works) && WorksOf(works, collection) && j !in s.jobs
    ensures Enabled(s, ClaimUpserts(j, collection, Tickets(winners), TicketSet(superseded)))
    ensures forall e :: e in works <==> e in winners || e in superseded
  {
    var sorted := SortWorks(works, collection);
    winners, superseded := SelectWinners(sorted, collection);
    forall e ensures e in works <==> e in sorted {
      assert e in multiset(works) <==> e in multiset(sorted);
    }
    forall i | 0 <= i < |sorted| ensures RowOf(s, sorted[i]) {
      assert sorted[i] in works;
    }
    SelectionIsClaim(s, j, sorted, winners, superseded, collection);
  }
}

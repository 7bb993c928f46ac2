/** Safety of whole runs of the write protocol. */
module WriteSafety {
  import opened Prelude
  import opened WriteProtocol
  import opened WriteInvariant
  import opened WriteSteps

  // ------------------------------------------------------------------ mutual exclusion

  /** In no state of any run do two tasks hold the same document lock. */
  lemma MutualExclusion(ss: seq<State>, es: seq<Event>, n: nat, t: nat, u: nat, key: DocKey)
    requires IsRun(ss, es) && n < |ss| && t in ss[n].tasks && u in ss[n].tasks
    requires LockName(key) in Held(ss[n].tasks[t]) && LockName(key) in Held(ss[n].tasks[u])
    ensures t == u
  {
    RunKeeps(ss, es, n);
  }

  // ------------------------------------------------------------------ no resurrection

  /** The documents an upsert step writes, as indices into the task's request. */
  function Chosen(s: State, e: Event): set<nat>
    requires Enabled(s, e)
  {
    match e
    case PatchOk(t) => PatchSet(s.tasks[t])
    case PatchErr(t, applied) => applied
    case AddOk(t) => AddSet(s.tasks[t])
    case AddErr(t, applied) => applied
    case LandAdd(t, i) => {i}
    case _ => {}
  }

  /** The step stores the document carried by queue row `q`. */
  predicate WritesRow(s: State, e: Event, q: nat)
    requires Enabled(s, e)
  {
    exists i :: i in Chosen(s, e) && i < |s.tasks[e.t].items| && s.tasks[e.t].items[i].ticket == Some(q)
  }

  /** Row `q` is gone and no running task has verified it: it can never be written again. */
  predicate Barred(s: State, q: nat)
  {
    && q in s.ledger && q !in s.queue
    && forall t, i :: t in s.tasks && s.tasks[t].Upsert? && !Finished(s.tasks[t])
         && 0 <= i < |s.tasks[t].items| && i < |s.tasks[t].marks| && s.tasks[t].items[i].ticket == Some(q)
         ==> s.tasks[t].marks[i].Unread? || s.tasks[t].marks[i].Drained?
  }

  /** Cancelling a row under the document lock bars it: nobody else is past verification. */
  lemma CancelBars(s: State, e: Event, q: nat)
    requires Inv(s) && Enabled(s, e) && e.CancelUpserts?
    requires q in Cancelled(s, s.tasks[e.t].key, s.tasks[e.t].ts)
    ensures Barred(Step(s, e), q)
  {
    var s' := Step(s, e);
    var d := s.tasks[e.t];
    forall t, i | t in s'.tasks && s'.tasks[t].Upsert? && !Finished(s'.tasks[t])
                  && 0 <= i < |s'.tasks[t].items| && i < |s'.tasks[t].marks|
                  && s'.tasks[t].items[i].ticket == Some(q)
      ensures s'.tasks[t].marks[i].Unread? || s'.tasks[t].marks[i].Drained?
    {
      var u := s.tasks[t];
      assert TaskOk(s.store, s.ledger, u);
      assert s.ledger[q] == UpsertRow(KeyAt(u, i), u.items[i].doc);
      assert MarkOk(s.store, u.upc, KeyAt(u, i), u.items[i].doc, u.marks[i]);
      if !u.upc.Locking? {
        HoldsItems(s.ledger, u, i);
      }
    }
  }

  lemma BarredNotWritten(s: State, e: Event, q: nat)
    requires Inv(s) && Enabled(s, e) && Barred(s, q)
    ensures !WritesRow(s, e, q)
  {
    forall i | i in Chosen(s, e) && i < |s.tasks[e.t].items|
      ensures s.tasks[e.t].items[i].ticket != Some(q)
    {
      var u := s.tasks[e.t];
      assert u.marks[i].Patch? || u.marks[i].Vectorize?;
    }
  }

  lemma OthersRest(s: State, e: Event, s': State, t: nat)
    requires Enabled(s, e) && s' == Step(s, e)
    ensures t in s.tasks && Mover(e) != Some(t) ==> t in s'.tasks && s'.tasks[t] == s.tasks[t]
  {
  }

  /** A new task has read nothing. */
  lemma NewUnread(s: State, e: Event, s': State, t: nat)
    requires Enabled(s, e) && s' == Step(s, e) && t !in s.tasks && t in s'.tasks && s'.tasks[t].Upsert?
    ensures s'.tasks[t].upc.Locking? && forall i :: 0 <= i < |s'.tasks[t].marks| ==> s'.tasks[t].marks[i].Unread?
  {
  }

  /** A moving task keeps its request; only verification and reading change its marks. */
  lemma MoverMarks(s: State, e: Event, s': State, t: nat)
    requires Inv(s) && Enabled(s, e) && s' == Step(s, e) && Mover(e) == Some(t) && t in s.tasks && s.tasks[t].Upsert?
    ensures t in s'.tasks && s'.tasks[t].Upsert? && s'.tasks[t].items == s.tasks[t].items && !Finished(s.tasks[t])
    ensures e.Verify? || e.Read? || s'.tasks[t].marks == s.tasks[t].marks
    ensures e.Verify? ==> s'.tasks[t] == AfterVerify(s, s.tasks[t])
    ensures e.Read? ==> s'.tasks[t] == AfterRead(s, s.tasks[t], e.revectorize)
  {
    assert TaskOk(s.store, s.ledger, s.tasks[t]);
  }

  /** Only the re-verification under the lock moves a mark forward, and it needs the row. */
  lemma BarredStays(s: State, e: Event, q: nat)
    requires Inv(s) && Enabled(s, e) && Barred(s, q)
    ensures Barred(Step(s, e), q)
  {
    var s' := Step(s, e);
    forall t, i | t in s'.tasks && s'.tasks[t].Upsert? && !Finished(s'.tasks[t])
                  && 0 <= i < |s'.tasks[t].items| && i < |s'.tasks[t].marks|
                  && s'.tasks[t].items[i].ticket == Some(q)
      ensures s'.tasks[t].marks[i].Unread? || s'.tasks[t].marks[i].Drained?
    {
      OthersRest(s, e, s', t);
      if t !in s.tasks {
        NewUnread(s, e, s', t);
      } else if Mover(e) == Some(t) && s.tasks[t].Upsert? {
        MoverMarks(s, e, s', t);
      }
    }
    LedgerGrows(s, e);
  }

  /** Rows are never edited, and no removed row comes back. */
  lemma LedgerGrows(s: State, e: Event)
    requires Enabled(s, e)
    ensures forall q :: q in s.ledger ==> q in Step(s, e).ledger && Step(s, e).ledger[q] == s.ledger[q]
    ensures forall q :: q in s.ledger && q !in s.queue ==> q !in Step(s, e).queue
  {
  }

  lemma {:induction false} BarredForever(ss: seq<State>, es: seq<Event>, i: nat, j: nat, q: nat)
    requires IsRun(ss, es) && i <= j < |ss| && Barred(ss[i], q)
    ensures Barred(ss[j], q)
    decreases j
  {
    if i < j {
      BarredForever(ss, es, i, j - 1, q);
      RunKeeps(ss, es, j - 1);
      BarredStays(ss[j - 1], es[j - 1], q);
      assert ss[j - 1 + 1] == Step(ss[j - 1], es[j - 1]);
    }
  }

  /**
    No resurrection.  A row that was queued with a timestamp at or below T when a delete
    at T cancelled pending upserts is not written by any later step of the run.
    */
  lemma NoResurrection(ss: seq<State>, es: seq<Event>, i: nat, j: nat, q: nat)
    requires IsRun(ss, es) && i < j < |es| && es[i].CancelUpserts?
    requires q in ss[i].queue && q in ss[i].ledger && ss[i].ledger[q].UpsertRow?
    requires es[i].t in ss[i].tasks && ss[i].tasks[es[i].t].Delete?
    requires ss[i].ledger[q].key == ss[i].tasks[es[i].t].key
    requires ss[i].ledger[q].doc.ts <= ss[i].tasks[es[i].t].ts
    ensures Enabled(ss[j], es[j]) && !WritesRow(ss[j], es[j], q)
  {
    RunKeeps(ss, es, i);
    CancelBars(ss[i], es[i], q);
    assert ss[i + 1] == Step(ss[i], es[i]);
    BarredForever(ss, es, i + 1, j, q);
    RunKeeps(ss, es, j);
    BarredNotWritten(ss[j], es[j], q);
  }

  // ------------------------------------------------------------------ last writer wins

  /** The step is the deletion of `k` for a request strictly later than the stored document. */
  predicate DeletesOlder(s: State, e: Event, k: DocKey)
  {
    && (e.DeleteDoc? || e.DeleteErr?)
    && e.t in s.tasks && s.tasks[e.t].Delete? && s.tasks[e.t].key == k
    && k in s.store && s.store[k].ts < s.tasks[e.t].ts
  }

  predicate IsWrite(e: Event)
  {
    e.PatchOk? || e.PatchErr? || e.AddOk? || e.AddErr? || e.LandAdd?
  }

  lemma WriteIsOfChosen(s: State, e: Event)
    requires Enabled(s, e) && IsWrite(e)
    ensures Step(s, e).store == Write(s.store, s.tasks[e.t], Chosen(s, e)) && !Finished(s.tasks[e.t])
    ensures forall i :: i in Chosen(s, e) ==> i < |s.tasks[e.t].items| == |s.tasks[e.t].marks|
    ensures (e.PatchOk? || e.PatchErr?) ==>
              s.tasks[e.t].upc.Patching? && forall i :: i in Chosen(s, e) ==> s.tasks[e.t].marks[i].Patch?
    ensures !(e.PatchOk? || e.PatchErr?) ==>
              && (s.tasks[e.t].upc.Adding? || s.tasks[e.t].upc.Reporting?)
              && forall i :: i in Chosen(s, e) ==> s.tasks[e.t].marks[i].Vectorize?
  {
  }

  /** A document a task is about to write is stored already or newer than what is. */
  lemma ChosenIsNewer(s: State, e: Event, i: nat)
    requires Inv(s) && Enabled(s, e) && IsWrite(e) && i in Chosen(s, e) && i < |s.tasks[e.t].items|
    ensures var u := s.tasks[e.t]; var k := KeyAt(u, i);
            k in s.store ==> s.store[k] == u.items[i].doc || s.store[k].ts < u.items[i].doc.ts
  {
    WriteIsOfChosen(s, e);
    var u := s.tasks[e.t];
    assert TaskOk(s.store, s.ledger, u);
    assert MarkOk(s.store, u.upc, KeyAt(u, i), u.items[i].doc, u.marks[i]);
  }

  lemma WriteIsNewer(s: State, e: Event, s': State, k: DocKey)
    requires Inv(s) && Enabled(s, e) && s' == Step(s, e) && k in s.store && IsWrite(e)
    ensures k in s'.store && (s'.store[k] == s.store[k] || s.store[k].ts < s'.store[k].ts)
  {
    var u := s.tasks[e.t];
    var chosen := Chosen(s, e);
    WriteIsOfChosen(s, e);
    assert TaskOk(s.store, s.ledger, u);
    if i: nat :| i in chosen && KeyAt(u, i) == k {
      WriteEffect(s.store, u, chosen, i);
      ChosenIsNewer(s, e, i);
    } else {
      WriteItemsEffect(s.store, u, chosen, |u.items|);
      assert Lookup(s'.store, k) == Lookup(s.store, k);
    }
  }

  /** One step leaves a stored document alone, raises its timestamp, or deletes it from a later request. */
  lemma StepIsNewer(s: State, e: Event, k: DocKey)
    requires Inv(s) && Enabled(s, e) && k in s.store
    ensures k in Step(s, e).store ==>
              Step(s, e).store[k] == s.store[k] || s.store[k].ts < Step(s, e).store[k].ts
    ensures k !in Step(s, e).store ==> DeletesOlder(s, e, k)
  {
    if IsWrite(e) {
      WriteIsNewer(s, e, Step(s, e), k);
    } else if k !in Step(s, e).store {
      assert TaskOk(s.store, s.ledger, s.tasks[e.t]);
    }
  }

  /** Unchanged, or replaced by a document with a later timestamp. */
  predicate SameOrNewer(s: State, s': State, k: DocKey)
    requires k in s.store
  {
    k in s'.store && (s'.store[k] == s.store[k] || s.store[k].ts < s'.store[k].ts)
  }

  /** Step `m` removed `k` for a delete request later than what was stored then. */
  predicate DeletedAt(ss: seq<State>, es: seq<Event>, m: nat, k: DocKey, atLeast: int)
    requires m < |ss| && m < |es|
  {
    DeletesOlder(ss[m], es[m], k) && atLeast <= ss[m].store[k].ts
  }

  lemma RunStepIsNewer(ss: seq<State>, es: seq<Event>, m: nat, k: DocKey)
    requires IsRun(ss, es) && m < |es| && k in ss[m].store
    ensures SameOrNewer(ss[m], ss[m + 1], k) || DeletesOlder(ss[m], es[m], k)
  {
    RunKeeps(ss, es, m);
    StepIsNewer(ss[m], es[m], k);
  }

  lemma {:induction false} NewerChain(ss: seq<State>, es: seq<Event>, i: nat, j: nat, k: DocKey)
    requires i <= j < |ss| == |es| + 1 && k in ss[i].store
    requires forall m :: i <= m < j && k in ss[m].store ==>
               SameOrNewer(ss[m], ss[m + 1], k) || DeletesOlder(ss[m], es[m], k)
    ensures SameOrNewer(ss[i], ss[j], k)
            || exists m :: i <= m < j && DeletedAt(ss, es, m, k, ss[i].store[k].ts)
    decreases j
  {
    if i < j {
      NewerChain(ss, es, i, j - 1, k);
      if SameOrNewer(ss[i], ss[j - 1], k) {
        assert SameOrNewer(ss[j - 1], ss[j - 1 + 1], k) || DeletedAt(ss, es, j - 1, k, ss[i].store[k].ts);
      }
    }
  }

  /**
    Last writer wins, over any stretch of a run.  A stored document is either still there
    unchanged, there with a later timestamp, or some step in between removed it for a
    delete request later than what was stored then, which was no older than at the start.
    */
  lemma LastWriterWins(ss: seq<State>, es: seq<Event>, i: nat, j: nat, k: DocKey)
    requires IsRun(ss, es) && i <= j < |ss| && k in ss[i].store
    ensures SameOrNewer(ss[i], ss[j], k)
            || exists m :: i <= m < j && DeletedAt(ss, es, m, k, ss[i].store[k].ts)
  {
    forall m | i <= m < j && k in ss[m].store
      ensures SameOrNewer(ss[m], ss[m + 1], k) || DeletesOlder(ss[m], es[m], k)
    {
      RunStepIsNewer(ss, es, m, k);
    }
    NewerChain(ss, es, i, j, k);
  }
}

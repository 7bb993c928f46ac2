/** What it means that the poller removed a queue row. */
module WriteAck {
  import opened Prelude
  import opened WriteProtocol
  import opened WriteInvariant
  import opened WriteSteps
  import opened WriteSafety

  /** A task holding the document's lock sees it stored at the row's timestamp or later. */
  ghost predicate CoveredAt(s: State, q: nat)
  {
    exists t, i :: CoveredBy(s, t, i, q)
  }

  /** That task is `t`, which carries the row as its item `i`. */
  predicate CoveredBy(s: State, t: nat, i: nat, q: nat)
  {
    t in s.tasks && s.tasks[t].Upsert? && i < |s.tasks[t].items| && CoversItem(s, t, i, q)
  }

  predicate CoversItem(s: State, t: nat, i: nat, q: nat)
    requires t in s.tasks && s.tasks[t].Upsert? && i < |s.tasks[t].items|
  {
    && s.tasks[t].items[i].ticket == Some(q)
    && LockName(KeyAt(s.tasks[t], i)) in Held(s.tasks[t])
    && Covers(s.store, KeyAt(s.tasks[t], i), s.tasks[t].items[i].doc)
  }

  /** The task reached a point where document `i` is known to be stored. */
  predicate Settled(u: Task, i: nat)
  {
    && u.Upsert? && |u.marks| == |u.items| && i < |u.items|
    && match u.upc
       case Patching => u.marks[i].Stale?
       case Adding => u.marks[i].Stale? || u.marks[i].Patch?
       case Reporting => !u.marks[i].Drained?
       case Succeeded => !u.marks[i].Drained?
       case _ => false
  }

  /** While the task still runs, a settled document is covered right now. */
  lemma SettledIsCovered(s: State, t: nat, i: nat, q: nat)
    requires Inv(s) && t in s.tasks && Settled(s.tasks[t], i) && !Finished(s.tasks[t])
    requires s.tasks[t].items[i].ticket == Some(q)
    ensures CoveredBy(s, t, i, q)
  {
    var u := s.tasks[t];
    assert TaskOk(s.store, s.ledger, u);
    assert MarkOk(s.store, u.upc, KeyAt(u, i), u.items[i].doc, u.marks[i]);
    HoldsItems(s.ledger, u, i);
  }

  /** A task that has just succeeded was settled a step before; otherwise it was done already. */
  lemma SucceedsSettled(s: State, e: Event, t: nat, i: nat)
    requires Inv(s) && Enabled(s, e) && t in Step(s, e).tasks
    requires Step(s, e).tasks[t].Upsert? && Step(s, e).tasks[t].upc.Succeeded? && Settled(Step(s, e).tasks[t], i)
    ensures t in s.tasks && Settled(s.tasks[t], i) && s.tasks[t].items == Step(s, e).tasks[t].items
    ensures s.tasks[t].upc.Succeeded? || !Finished(s.tasks[t])
  {
    var s' := Step(s, e);
    OthersRest(s, e, s', t);
    if t !in s.tasks {
      NewUnread(s, e, s', t);
    } else if Mover(e) == Some(t) && s.tasks[t].Upsert? {
      MoverMarks(s, e, s', t);
    }
  }

  /** Task `t` has succeeded and its item `i`, which carries row `q`, is settled. */
  predicate DoneWith(s: State, t: nat, i: nat, q: nat)
  {
    t in s.tasks && s.tasks[t].Upsert? && s.tasks[t].upc.Succeeded? && Settled(s.tasks[t], i) && s.tasks[t].items[i].ticket == Some(q)
  }

  lemma DoneBefore(ss: seq<State>, es: seq<Event>, n: nat, t: nat, i: nat, q: nat)
    requires IsRun(ss, es) && n < |es| && DoneWith(ss[n + 1], t, i, q)
    ensures DoneWith(ss[n], t, i, q) || CoveredBy(ss[n], t, i, q)
  {
    RunKeeps(ss, es, n);
    SucceedsSettled(ss[n], es[n], t, i);
    if !ss[n].tasks[t].upc.Succeeded? {
      SettledIsCovered(ss[n], t, i, q);
    }
  }

  lemma {:induction false} DoneChain(ss: seq<State>, n: nat, t: nat, i: nat, q: nat)
    requires n < |ss| && DoneWith(ss[n], t, i, q) && ss[0].tasks == map[]
    requires forall m :: 0 <= m < n && DoneWith(ss[m + 1], t, i, q) ==> DoneWith(ss[m], t, i, q) || CoveredBy(ss[m], t, i, q)
    ensures exists m :: 0 <= m < n && CoveredBy(ss[m], t, i, q)
    decreases n
  {
    if n > 0 {
      assert DoneWith(ss[n - 1 + 1], t, i, q);
      if DoneWith(ss[n - 1], t, i, q) {
        DoneChain(ss, n - 1, t, i, q);
      }
    }
  }

  /** Every settled document of a finished task was covered at some earlier moment. */
  lemma WasCovered(ss: seq<State>, es: seq<Event>, n: nat, t: nat, i: nat, q: nat)
    requires IsRun(ss, es) && n < |ss| && DoneWith(ss[n], t, i, q)
    ensures exists m :: 0 <= m < n && CoveredBy(ss[m], t, i, q)
  {
    forall m | 0 <= m < n && DoneWith(ss[m + 1], t, i, q) ensures DoneWith(ss[m], t, i, q) || CoveredBy(ss[m], t, i, q) {
      DoneBefore(ss, es, m, t, i, q);
    }
    DoneChain(ss, n, t, i, q);
  }

  /** Winner `w` travels as item `w % 16` of chunk `w / 16`. */
  lemma WinnerInChunk(s: State, job: Job, w: nat)
    requires JobOk(s, job) && w < |job.winners| <= |job.chunks| * CHUNK_SIZE
    ensures w / CHUNK_SIZE < |job.chunks| && job.chunks[w / CHUNK_SIZE] in s.tasks
    ensures var u := s.tasks[job.chunks[w / CHUNK_SIZE]];
            u.Upsert? && w % CHUNK_SIZE < |u.items| && u.items[w % CHUNK_SIZE].ticket == Some(job.winners[w])
  {
    var c := w / CHUNK_SIZE;
    assert ChunkOk(s, job, c);
    assert ChunkIds(job, c)[w % CHUNK_SIZE] == job.winners[w];
  }

  /**
    Acknowledge soundness.  If the poller removes an upsert row after a bulk upsert, the row is a winner
    of that job, and at some earlier moment the task of the winner's chunk held the document's lock while
    the store had the document at the row's timestamp or later.
    */
  lemma AckSound(ss: seq<State>, es: seq<Event>, n: nat, q: nat) returns (w: nat, m: nat)
    requires IsRun(ss, es) && n < |es| && es[n].AckUpserts? && q in es[n].removed
    ensures es[n].j in ss[n].jobs
    ensures var job := ss[n].jobs[es[n].j];
            && w < |job.winners| && job.winners[w] == q && w / CHUNK_SIZE < |job.chunks|
            && m < n && CoveredBy(ss[m], job.chunks[w / CHUNK_SIZE], w % CHUNK_SIZE, q)
  {
    var s := ss[n];
    RunKeeps(ss, es, n);
    assert Enabled(s, es[n]);
    var job := s.jobs[es[n].j];
    w :| w < |job.winners| && job.winners[w] == q;
    WinnerInChunk(s, job, w);
    var t, i := job.chunks[w / CHUNK_SIZE], w % CHUNK_SIZE;
    var u := s.tasks[t];
    assert TaskOk(s.store, s.ledger, u);
    assert s.ledger[q] == UpsertRow(KeyAt(u, i), u.items[i].doc);
    WasCovered(ss, es, n, t, i, q);
    m :| 0 <= m < n && CoveredBy(ss[m], t, i, q);
  }

  /** A row dropped without being written has a row of its job with the same document, no older. */
  lemma DropSound(ss: seq<State>, es: seq<Event>, n: nat)
    requires IsRun(ss, es) && n < |es| && es[n].DropSuperseded?
    ensures es[n].j in ss[n].jobs
    ensures exists w :: w in ss[n].jobs[es[n].j].winners && Supersedes(ss[n].ledger, w, es[n].q)
  {
    RunKeeps(ss, es, n);
    assert JobOk(ss[n], ss[n].jobs[es[n].j]);
  }

  /** Upsert rows leave the queue in exactly three ways. */
  lemma RowLeaves(s: State, e: Event, q: nat)
    requires Inv(s) && Enabled(s, e) && q in s.queue && q !in Step(s, e).queue && s.ledger[q].UpsertRow?
    ensures (e.AckUpserts? && q in e.removed)
            || (e.DropSuperseded? && q == e.q)
            || ((e.CancelUpserts? || e.CancelErr?) && q in Cancelled(s, s.tasks[e.t].key, s.tasks[e.t].ts))
  {
  }

  // ------------------------------------------------------------------ failed chunks

  predicate HasFailedChunk(s: State, j: nat)
  {
    j in s.jobs && exists c :: 0 <= c < |s.jobs[j].chunks| && FailedChunk(s, j, c)
  }

  predicate FailedChunk(s: State, j: nat, c: nat)
  {
    && j in s.jobs && c < |s.jobs[j].chunks| && s.jobs[j].chunks[c] in s.tasks
    && s.tasks[s.jobs[j].chunks[c]].Upsert? && s.tasks[s.jobs[j].chunks[c]].upc.Failed?
  }

  lemma ChunkKept(s: State, e: Event, s': State, j: nat, c: nat)
    requires Enabled(s, e) && s' == Step(s, e) && j in s.jobs && c < |s.jobs[j].chunks|
    ensures j in s'.jobs && c < |s'.jobs[j].chunks| && s'.jobs[j].chunks[c] == s.jobs[j].chunks[c]
  {
  }

  lemma FailedKept(s: State, e: Event, s': State, t: nat)
    requires Inv(s) && Enabled(s, e) && s' == Step(s, e)
    requires t in s.tasks && s.tasks[t].Upsert? && s.tasks[t].upc.Failed?
    ensures t in s'.tasks && s'.tasks[t].Upsert? && s'.tasks[t].upc.Failed?
  {
    OthersRest(s, e, s', t);
    if Mover(e) == Some(t) { MoverMarks(s, e, s', t); }
  }

  lemma FailureStays(s: State, e: Event, s': State, j: nat, c: nat)
    requires Inv(s) && Enabled(s, e) && s' == Step(s, e) && FailedChunk(s, j, c)
    ensures FailedChunk(s', j, c)
  {
    ChunkKept(s, e, s', j, c);
    FailedKept(s, e, s', s.jobs[j].chunks[c]);
  }

  lemma RunFailureStays(ss: seq<State>, es: seq<Event>, n: nat, j: nat)
    requires IsRun(ss, es) && n < |es| && HasFailedChunk(ss[n], j)
    ensures HasFailedChunk(ss[n + 1], j)
    ensures !(es[n].AckUpserts? && es[n].j == j)
  {
    RunKeeps(ss, es, n);
    var c: nat :| c < |ss[n].jobs[j].chunks| && FailedChunk(ss[n], j, c);
    FailureStays(ss[n], es[n], ss[n + 1], j, c);
  }

  lemma {:induction false} FailureChain(ss: seq<State>, i: nat, n: nat, j: nat)
    requires i <= n < |ss| && HasFailedChunk(ss[i], j)
    requires forall m :: i <= m < n && HasFailedChunk(ss[m], j) ==> HasFailedChunk(ss[m + 1], j)
    ensures HasFailedChunk(ss[n], j)
    decreases n
  {
    if i < n {
      FailureChain(ss, i, n - 1, j);
    }
  }

  /** Once any chunk of a job has failed, no later step acknowledges a row of that job. */
  lemma FailedJobNeverAcks(ss: seq<State>, es: seq<Event>, i: nat, n: nat, j: nat)
    requires IsRun(ss, es) && i <= n < |es| && HasFailedChunk(ss[i], j)
    ensures !(es[n].AckUpserts? && es[n].j == j)
  {
    forall m | i <= m < n && HasFailedChunk(ss[m], j) ensures HasFailedChunk(ss[m + 1], j) {
      RunFailureStays(ss, es, m, j);
    }
    FailureChain(ss, i, n, j);
    RunFailureStays(ss, es, n, j);
  }

  // ------------------------------------------------------------------ running a job again

  predicate RowKept(s: State, s': State, q: nat)
  {
    q in s.ledger ==> q in s'.ledger && s'.ledger[q] == s.ledger[q]
  }

  lemma {:induction false} RowKeptChain(ss: seq<State>, m: nat, n: nat, q: nat)
    requires m <= n < |ss| && q in ss[m].ledger
    requires forall i :: m <= i < n ==> RowKept(ss[i], ss[i + 1], q)
    ensures q in ss[n].ledger && ss[n].ledger[q] == ss[m].ledger[q]
    decreases n
  {
    if m < n {
      RowKeptChain(ss, m, n - 1, q);
      assert RowKept(ss[n - 1], ss[n - 1 + 1], q);
    }
  }

  lemma LedgerForever(ss: seq<State>, es: seq<Event>, m: nat, n: nat, q: nat)
    requires IsRun(ss, es) && m <= n < |ss| && q in ss[m].ledger
    ensures q in ss[n].ledger && ss[n].ledger[q] == ss[m].ledger[q]
  {
    forall i | m <= i < n ensures RowKept(ss[i], ss[i + 1], q) {
      LedgerGrows(ss[i], es[i]);
    }
    RowKeptChain(ss, m, n, q);
  }

  /** What a task carries for row `q` is that row's document. */
  lemma TicketsMatch(s: State, t: nat, i: nat, q: nat)
    requires Inv(s) && t in s.tasks && s.tasks[t].Upsert? && i < |s.tasks[t].items|
    requires s.tasks[t].items[i].ticket == Some(q)
    ensures q in s.ledger && s.ledger[q] == UpsertRow(KeyAt(s.tasks[t], i), s.tasks[t].items[i].doc)
    ensures |s.tasks[t].marks| == |s.tasks[t].items|
  {
    assert TaskOk(s.store, s.ledger, s.tasks[t]);
  }

  /** A covered document that nobody deleted since is still covered. */
  lemma StaysCovered(ss: seq<State>, es: seq<Event>, m: nat, n: nat, q: nat)
    requires IsRun(ss, es) && m <= n < |ss| && CoveredAt(ss[m], q)
    requires forall d :: m <= d < n ==>
               !(q in ss[m].ledger && DeletesOlder(ss[d], es[d], ss[m].ledger[q].key))
    ensures q in ss[n].ledger && ss[n].ledger[q].UpsertRow? && Covers(ss[n].store, ss[n].ledger[q].key, ss[n].ledger[q].doc)
  {
    var t, i :| CoveredBy(ss[m], t, i, q);
    RunKeeps(ss, es, m);
    TicketsMatch(ss[m], t, i, q);
    LedgerForever(ss, es, m, n, q);
    LastWriterWins(ss, es, m, n, ss[m].ledger[q].key);
  }

  /**
    Re-running after partial success.  If a row's document was stored once and not deleted
    since, a later task carrying the same row finds it stale and does not write it again.
    */
  lemma RerunSkips(ss: seq<State>, es: seq<Event>, m: nat, n: nat, t: nat, i: nat, q: nat)
    requires IsRun(ss, es) && m <= n < |es| && CoveredAt(ss[m], q)
    requires forall d :: m <= d < n ==>
               !(q in ss[m].ledger && DeletesOlder(ss[d], es[d], ss[m].ledger[q].key))
    requires es[n].Read? && es[n].t == t && t in ss[n].tasks && ss[n].tasks[t].Upsert?
    requires i < |ss[n].tasks[t].items| && ss[n].tasks[t].items[i].ticket == Some(q)
    requires i < |ss[n].tasks[t].marks| && ss[n].tasks[t].marks[i].Kept?
    ensures t in ss[n + 1].tasks && ss[n + 1].tasks[t].Upsert? && i < |ss[n + 1].tasks[t].marks|
    ensures ss[n + 1].tasks[t].marks[i].Stale?
  {
    StaysCovered(ss, es, m, n, q);
    RunKeeps(ss, es, n);
    TicketsMatch(ss[n], t, i, q);
    assert ss[n + 1] == Step(ss[n], es[n]);
    assert ss[n + 1].tasks[t] == AfterRead(ss[n], ss[n].tasks[t], es[n].revectorize);
  }
}

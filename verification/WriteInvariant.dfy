/** What every step of the write protocol keeps. */
module WriteInvariant {
  import opened Prelude
  import opened WriteProtocol

  /** What the mark of one document says about the store while its lock is held. */
  predicate MarkOk(store: Store, pc: UpsertPc, key: DocKey, doc: Doc, mark: Mark)
  {
    match pc
    case Locking => mark.Unread?
    case Verifying => mark.Unread?
    case Reading => mark.Drained? || mark.Kept?
    case Patching => PlannedOk(store, key, doc, mark)
    case Adding =>
      && !mark.Unread? && !mark.Kept?
      && (mark.Stale? ==> Covers(store, key, doc))
      && (mark.Patch? ==> Lookup(store, key) == Some(doc))
      && (mark.Vectorize? ==> PlannedOk(store, key, doc, mark) || Lookup(store, key) == Some(doc))
    case Reporting =>
      && !mark.Unread? && !mark.Kept? && (!mark.Drained? ==> Covers(store, key, doc))
      && (mark.Vectorize? ==> Lookup(store, key) == Some(doc))
    case Succeeded => !mark.Unread? && !mark.Kept?
    case Failed => true
  }

  /** The decision taken when the store was read still describes the store. */
  predicate PlannedOk(store: Store, key: DocKey, doc: Doc, mark: Mark)
  {
    && !mark.Unread? && !mark.Kept?
    && (mark.Stale? ==> Covers(store, key, doc))
    && (mark.Patch? ==> Lookup(store, key) == Some(mark.seen) && mark.seen.ts < doc.ts)
    && (mark.Vectorize? ==>
          Lookup(store, key) == mark.found && (mark.found.Some? ==> mark.found.value.ts < doc.ts))
  }

  /** The store holds the document at this timestamp or a later one. */
  predicate Covers(store: Store, key: DocKey, doc: Doc)
  {
    key in store && doc.ts <= store[key].ts
  }

  /** Facts about an upsert task that do not depend on the store. */
  predicate UpsertShape(ledger: map<nat, Row>, u: Task)
    requires u.Upsert?
  {
    && u.items != [] && UniqueIds(u.items) && IsPlan(u.plan, u.items)
    && |u.marks| == |u.items|
    && u.got <= |u.plan|
    && (u.upc.Locking? ==> u.got < |u.plan|)
    && (!u.upc.Locking? && !Finished(u) ==> u.got == |u.plan|)
    && (forall i :: 0 <= i < |u.items| && u.items[i].ticket.Some? ==>
          u.items[i].ticket.value in ledger
          && ledger[u.items[i].ticket.value] == UpsertRow(KeyAt(u, i), u.items[i].doc))
  }

  predicate TaskOk(store: Store, ledger: map<nat, Row>, task: Task)
  {
    match task
    case Upsert(_, items, _, _, pc, marks, _) =>
      && UpsertShape(ledger, task)
      && forall i :: 0 <= i < |items| ==> MarkOk(store, pc, KeyAt(task, i), items[i].doc, marks[i])
    case Delete(key, ts, ticket, pc, existing) =>
      && (ticket.Some? ==> ticket.value in ledger && ledger[ticket.value] == DeleteRow(key, ts))
      && (pc.DCancelling? || pc.DDeleting? ==> existing == Lookup(store, key))
      && (pc.DDeleting? ==> existing.Some? && existing.value.ts < ts)
  }

  predicate Disjoint(tasks: map<nat, Task>)
  {
    forall t, u :: t in tasks && u in tasks && t != u ==> Held(tasks[t]) !! Held(tasks[u])
  }

  /** Chunk `c` of a job carries exactly the tickets of its slice of the winners. */
  predicate ChunkOk(s: State, job: Job, c: nat)
    requires c < |job.chunks| && c * CHUNK_SIZE < |job.winners|
  {
    var ids := ChunkIds(job, c);
    && job.chunks[c] in s.tasks && s.tasks[job.chunks[c]].Upsert?
    && |s.tasks[job.chunks[c]].items| == |ids|
    && forall i :: 0 <= i < |ids| ==> s.tasks[job.chunks[c]].items[i].ticket == Some(ids[i])
  }

  predicate JobOk(s: State, job: Job)
  {
    && UpsertIds(s, job.winners, job.collection)
    && (forall a, b :: 0 <= a < b < |job.winners| ==>
          s.ledger[job.winners[a]].key.id != s.ledger[job.winners[b]].key.id)
    && (forall q :: q in job.superseded ==> exists w :: w in job.winners && Supersedes(s.ledger, w, q))
    && (forall c :: 0 <= c < |job.chunks| ==> c * CHUNK_SIZE < |job.winners| && ChunkOk(s, job, c))
  }

  predicate Inv(s: State)
  {
    && s.queue <= s.ledger.Keys
    && Disjoint(s.tasks)
    && (forall t :: t in s.tasks ==> TaskOk(s.store, s.ledger, s.tasks[t]))
    && (forall j :: j in s.jobs ==> JobOk(s, s.jobs[j]))
  }

  // ------------------------------------------------------------------ locks and keys

  /** Past the locking phase a task holds the lock of every document it was given. */
  lemma HoldsItems(ledger: map<nat, Row>, u: Task, i: nat)
    requires u.Upsert? && UpsertShape(ledger, u) && !u.upc.Locking? && !Finished(u) && i < |u.items|
    ensures LockName(KeyAt(u, i)) in Held(u)
  {
    assert u.items[i].id in u.plan;
    var p :| 0 <= p < |u.plan| && u.plan[p] == u.items[i].id;
    assert PlanName(u, p) == LockName(KeyAt(u, i));
  }

  /** Two stores that agree wherever the task holds the lock look the same to the task. */
  lemma Frame(store: Store, store': Store, ledger: map<nat, Row>, ledger': map<nat, Row>, task: Task)
    requires TaskOk(store, ledger, task)
    requires forall k :: LockName(k) in Held(task) ==> Lookup(store', k) == Lookup(store, k)
    requires forall q :: q in ledger ==> q in ledger' && ledger'[q] == ledger[q]
    ensures TaskOk(store', ledger', task)
  {
    if task.Upsert? && !task.upc.Locking? && !Finished(task) {
      forall i | 0 <= i < |task.items|
        ensures MarkOk(store', task.upc, KeyAt(task, i), task.items[i].doc, task.marks[i])
      {
        HoldsItems(ledger, task, i);
        assert Lookup(store', KeyAt(task, i)) == Lookup(store, KeyAt(task, i));
        assert MarkOk(store, task.upc, KeyAt(task, i), task.items[i].doc, task.marks[i]);
      }
    } else if task.Delete? && (task.dpc.DCancelling? || task.dpc.DDeleting?) {
      assert LockName(task.key) in Held(task);
    }
  }

  // ------------------------------------------------------------------ writes

  lemma {:induction false} WriteItemsEffect(store: Store, u: Task, chosen: set<nat>, n: nat)
    requires u.Upsert? && UniqueIds(u.items) && n <= |u.items|
    ensures forall i :: 0 <= i < n && i in chosen ==>
              Lookup(WriteItems(store, u, chosen, n), KeyAt(u, i)) == Some(u.items[i].doc)
    ensures forall k :: (forall i :: 0 <= i < n && i in chosen ==> KeyAt(u, i) != k) ==>
              Lookup(WriteItems(store, u, chosen, n), k) == Lookup(store, k)
  {
    if n > 0 {
      WriteItemsEffect(store, u, chosen, n - 1);
      var before := WriteItems(store, u, chosen, n - 1);
      forall k | (forall i :: 0 <= i < n && i in chosen ==> KeyAt(u, i) != k)
        ensures Lookup(WriteItems(store, u, chosen, n), k) == Lookup(store, k)
      {
        assert forall i :: 0 <= i < n - 1 && i in chosen ==> KeyAt(u, i) != k;
        assert n - 1 in chosen ==> KeyAt(u, n - 1) != k;
        assert Lookup(before, k) == Lookup(store, k);
      }
      forall i | 0 <= i < n && i in chosen
        ensures Lookup(WriteItems(store, u, chosen, n), KeyAt(u, i)) == Some(u.items[i].doc)
      {
        if i < n - 1 {
          assert u.items[i].id != u.items[n - 1].id;
          assert KeyAt(u, i) != KeyAt(u, n - 1);
          assert Lookup(before, KeyAt(u, i)) == Some(u.items[i].doc);
        }
      }
    }
  }

  /** A write changes exactly the chosen documents: others keep what they had. */
  lemma WriteEffect(store: Store, u: Task, chosen: set<nat>, i: nat)
    requires u.Upsert? && UniqueIds(u.items) && i < |u.items|
    ensures Lookup(Write(store, u, chosen), KeyAt(u, i)) ==
            if i in chosen then Some(u.items[i].doc) else Lookup(store, KeyAt(u, i))
  {
    WriteItemsEffect(store, u, chosen, |u.items|);
    if i !in chosen {
      forall j | 0 <= j < |u.items| && j in chosen
        ensures KeyAt(u, j) != KeyAt(u, i)
      {
        if j < i { assert u.items[j].id != u.items[i].id; } else { assert u.items[i].id != u.items[j].id; }
      }
    }
  }

  /** A write only touches documents whose locks the writer holds. */
  lemma WriteFrame(store: Store, ledger: map<nat, Row>, u: Task, chosen: set<nat>, k: DocKey)
    requires u.Upsert? && UpsertShape(ledger, u) && !u.upc.Locking? && !Finished(u)
    requires LockName(k) !in Held(u)
    ensures Lookup(Write(store, u, chosen), k) == Lookup(store, k)
  {
    WriteItemsEffect(store, u, chosen, |u.items|);
    forall i | 0 <= i < |u.items|
      ensures KeyAt(u, i) != k
    {
      HoldsItems(ledger, u, i);
    }
  }

  // ------------------------------------------------------------------ one task moves

  /** The parts of a task that its job refers to. */
  predicate SameLoad(a: Task, b: Task)
  {
    a.Upsert? && b.Upsert? ==> a.items == b.items && a.collection == b.collection
  }

  /**
    If one task moves and changes the store only under its own locks, the invariant
    reduces to that task's own part.
    */
  lemma TaskMoves(s: State, t: nat, task: Task, store': Store, queue': set<nat>)
    requires Inv(s)
    requires t in s.tasks && task.Upsert? == s.tasks[t].Upsert? && SameLoad(s.tasks[t], task)
    requires TaskOk(store', s.ledger, task)
    requires Held(task) <= Held(s.tasks[t])
             || (store' == s.store && forall n :: n in Held(task) && n !in Held(s.tasks[t]) ==> Free(s, n))
    requires forall k :: LockName(k) !in Held(s.tasks[t]) ==> Lookup(store', k) == Lookup(s.store, k)
    requires queue' <= s.queue
    ensures Inv(SetTask(s, t, task).(store := store', queue := queue'))
  {
    var s' := SetTask(s, t, task).(store := store', queue := queue');
    forall u | u in s.tasks && u != t
      ensures Held(task) !! Held(s.tasks[u]) && TaskOk(store', s.ledger, s.tasks[u])
    {
      assert Held(s.tasks[t]) !! Held(s.tasks[u]);
      forall n | n in Held(task) ensures n !in Held(s.tasks[u]) {}
      Frame(s.store, store', s.ledger, s.ledger, s.tasks[u]);
    }
    forall j | j in s'.jobs ensures JobOk(s', s'.jobs[j]) {
      KeepJob(s, s', s.jobs[j]);
    }
  }

  /** Jobs survive any step that keeps the ledger's rows and the load of existing tasks. */
  lemma KeepJob(s: State, s': State, job: Job)
    requires JobOk(s, job)
    requires forall q :: q in s.ledger ==> q in s'.ledger && s'.ledger[q] == s.ledger[q]
    requires forall t :: t in s.tasks ==>
               t in s'.tasks && s'.tasks[t].Upsert? == s.tasks[t].Upsert? && SameLoad(s.tasks[t], s'.tasks[t])
    ensures JobOk(s', job)
  {
    forall q | q in job.superseded ensures exists w :: w in job.winners && Supersedes(s'.ledger, w, q) {
      var w :| w in job.winners && Supersedes(s.ledger, w, q);
      assert Supersedes(s'.ledger, w, q);
    }
    forall c | 0 <= c < |job.chunks| ensures c * CHUNK_SIZE < |job.winners| && ChunkOk(s', job, c) {
      assert ChunkOk(s, job, c);
    }
  }

  /** A new task holds no locks yet. */
  lemma TaskStarts(s: State, t: nat, task: Task)
    requires Inv(s) && t !in s.tasks && TaskOk(s.store, s.ledger, task) && Held(task) == {}
    ensures Inv(SetTask(s, t, task))
  {
    var s' := SetTask(s, t, task);
    forall j | j in s'.jobs ensures JobOk(s', s'.jobs[j]) {
      KeepJob(s, s', s.jobs[j]);
    }
  }

  /** The task a step moves, if it moves one that exists already. */
  function Mover(e: Event): Option<nat>
  {
    match e
    case Acquire(t) => Some(t)
    case Verify(t) => Some(t)
    case Read(t, _) => Some(t)
    case PatchOk(t) => Some(t)
    case PatchErr(t, _) => Some(t)
    case AddOk(t) => Some(t)
    case AddErr(t, _) => Some(t)
    case LandAdd(t, _) => Some(t)
    case Report(t) => Some(t)
    case CancelUpserts(t) => Some(t)
    case CancelErr(t, _) => Some(t)
    case DeleteDoc(t) => Some(t)
    case DeleteErr(t, _) => Some(t)
    case Abort(t) => Some(t)
    case _ => None
  }
}

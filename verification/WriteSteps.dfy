/** Every step of the write protocol keeps the invariant, so every reachable state has it. */
module WriteSteps {
  import opened Prelude
  import opened WriteProtocol
  import opened WriteInvariant

  lemma StartKeeps(s: State, e: Event)
    requires Inv(s) && Enabled(s, e) && (e.StartUpsert? || e.StartDelete? || e.ClaimDelete?)
    ensures Inv(Step(s, e))
  {
    var task := Step(s, e).tasks[e.t];
    assert Held(task) == {};
    if e.StartUpsert? {
      assert e.items[0].id in e.plan;
    }
    TaskStarts(s, e.t, task);
  }

  lemma EnqueueKeeps(s: State, e: Event)
    requires Inv(s) && Enabled(s, e) && e.Enqueue?
    ensures Inv(Step(s, e))
  {
    var s' := Step(s, e);
    forall t | t in s'.tasks ensures TaskOk(s'.store, s'.ledger, s'.tasks[t]) {
      Frame(s.store, s'.store, s.ledger, s'.ledger, s.tasks[t]);
    }
    forall j | j in s'.jobs ensures JobOk(s', s'.jobs[j]) {
      KeepJob(s, s', s.jobs[j]);
    }
  }

  lemma ClaimKeeps(s: State, e: Event)
    requires Inv(s) && Enabled(s, e) && e.ClaimUpserts?
    ensures Inv(Step(s, e))
  {
    JobReplaced(s, e.j, Job(e.collection, e.winners, e.superseded, []));
  }

  /** A chunk is a well-formed upsert task over its slice of the winners. */
  lemma ChunkShape(s: State, job: Job, plan: seq<string>)
    requires JobOk(s, job) && |job.chunks| * CHUNK_SIZE < |job.winners|
    requires UpsertIds(s, ChunkIds(job, |job.chunks|), job.collection)
    requires IsPlan(plan, ChunkItems(s.ledger, ChunkIds(job, |job.chunks|)))
    ensures UpsertShape(s.ledger, NewUpsert(job.collection, ChunkItems(s.ledger, ChunkIds(job, |job.chunks|)), plan))
  {
    var lo := |job.chunks| * CHUNK_SIZE;
    var ids := ChunkIds(job, |job.chunks|);
    var items := ChunkItems(s.ledger, ids);
    assert forall i :: 0 <= i < |ids| ==> ids[i] == job.winners[lo + i];
    forall i, j | 0 <= i < j < |items| ensures items[i].id != items[j].id {
      assert s.ledger[job.winners[lo + i]].key.id != s.ledger[job.winners[lo + j]].key.id;
    }
    assert items[0].id in plan;
  }

  /** A job that gains the chunk for its next slice is still described by its chunks. */
  lemma JobGrows(s: State, job: Job, t: nat)
    requires JobOk(s, job) && |job.chunks| * CHUNK_SIZE < |job.winners|
    requires t in s.tasks && s.tasks[t].Upsert?
    requires s.tasks[t].items == ChunkItems(s.ledger, ChunkIds(job, |job.chunks|))
    ensures JobOk(s, job.(chunks := job.chunks + [t]))
  {
    var job' := job.(chunks := job.chunks + [t]);
    forall c | 0 <= c < |job'.chunks|
      ensures c * CHUNK_SIZE < |job'.winners| && ChunkOk(s, job', c)
    {
      if c < |job.chunks| {
        assert ChunkOk(s, job, c);
        assert ChunkIds(job', c) == ChunkIds(job, c);
      } else {
        assert ChunkIds(job', c) == ChunkIds(job, |job.chunks|);
      }
    }
  }

  lemma SpawnKeeps(s: State, e: Event)
    requires Inv(s) && Enabled(s, e) && e.SpawnChunk?
    ensures Inv(Step(s, e))
  {
    var job := s.jobs[e.j];
    ChunkShape(s, job, e.plan);
    var task := NewUpsert(job.collection, ChunkItems(s.ledger, ChunkIds(job, |job.chunks|)), e.plan);
    assert Held(task) == {};
    TaskStarts(s, e.t, task);
    var mid := SetTask(s, e.t, task);
    assert JobOk(mid, mid.jobs[e.j]);
    JobGrows(mid, job, e.t);
    JobReplaced(mid, e.j, job.(chunks := job.chunks + [e.t]));
  }

  lemma JobReplaced(s: State, j: nat, job: Job)
    requires Inv(s) && JobOk(s, job)
    ensures Inv(s.(jobs := s.jobs[j := job]))
  {
    var s' := s.(jobs := s.jobs[j := job]);
    forall i | i in s'.jobs ensures JobOk(s', s'.jobs[i]) {
      KeepJob(s, s', s'.jobs[i]);
    }
  }

  lemma QueueShrinks(s: State, queue': set<nat>)
    requires Inv(s) && queue' <= s.queue
    ensures Inv(s.(queue := queue'))
  {
    var s' := s.(queue := queue');
    forall j | j in s'.jobs ensures JobOk(s', s'.jobs[j]) {
      KeepJob(s, s', s.jobs[j]);
    }
  }

  /** Taking the next lock in the plan keeps every lock already held. */
  lemma AcquireKeeps(s: State, e: Event)
    requires Inv(s) && Enabled(s, e) && e.Acquire?
    ensures Inv(Step(s, e))
  {
    var task := s.tasks[e.t];
    var task' := AfterAcquire(task);
    forall n | n in Held(task') && n !in Held(task) ensures Free(s, n) {
      if task.Upsert? {
        var i :| 0 <= i < task'.got && i < |task.plan| && n == PlanName(task', i);
        assert PlanName(task, i) == n;
        assert i == task.got;
      }
    }
    assert TaskOk(s.store, s.ledger, task') by {
      if task.Upsert? {
        forall i | 0 <= i < |task.items|
          ensures MarkOk(s.store, task'.upc, KeyAt(task', i), task.items[i].doc, task.marks[i])
        {
          assert MarkOk(s.store, task.upc, KeyAt(task, i), task.items[i].doc, task.marks[i]);
        }
      }
    }
    TaskMoves(s, e.t, task', s.store, s.queue);
  }

  lemma SameHeld(u: Task, u': Task)
    requires u.Upsert? && u'.Upsert? && u.collection == u'.collection && u.plan == u'.plan && u.got == u'.got
    requires !Finished(u)
    ensures Held(u') <= Held(u)
  {
    forall n | n in Held(u') ensures n in Held(u) {
      var i :| 0 <= i < u'.got && i < |u'.plan| && n == PlanName(u', i);
      assert PlanName(u, i) == n;
    }
  }

  lemma VerifyKeeps(s: State, e: Event)
    requires Inv(s) && Enabled(s, e) && e.Verify?
    ensures Inv(Step(s, e))
  {
    var task := s.tasks[e.t];
    var task' := Step(s, e).tasks[e.t];
    if task.Upsert? {
      SameHeld(task, task');
      VerifiedOk(s, task);
    }
    TaskMoves(s, e.t, task', s.store, s.queue);
  }

  lemma VerifiedOk(s: State, u: Task)
    requires u.Upsert? && u.upc.Verifying? && TaskOk(s.store, s.ledger, u)
    ensures TaskOk(s.store, s.ledger, AfterVerify(s, u))
  {
    var u' := AfterVerify(s, u);
    assert UpsertShape(s.ledger, u') by {
      assert forall i :: 0 <= i < |u.items| ==> KeyAt(u', i) == KeyAt(u, i);
    }
  }

  lemma ReadUpsertOk(s: State, task: Task, revectorize: set<nat>)
    requires task.Upsert? && task.upc.Reading? && TaskOk(s.store, s.ledger, task)
    ensures TaskOk(s.store, s.ledger, AfterRead(s, task, revectorize)) && Held(AfterRead(s, task, revectorize)) <= Held(task)
  {
    var task' := AfterRead(s, task, revectorize);
    SameHeld(task, task');
    forall i | 0 <= i < |task.items|
      ensures MarkOk(s.store, Patching, KeyAt(task', i), task.items[i].doc, task'.marks[i])
    {
      assert MarkOk(s.store, Reading, KeyAt(task, i), task.items[i].doc, task.marks[i]);
      assert KeyAt(task', i) == KeyAt(task, i);
    }
  }

  lemma ReadKeeps(s: State, e: Event)
    requires Inv(s) && Enabled(s, e) && e.Read?
    ensures Inv(Step(s, e))
  {
    var task := s.tasks[e.t];
    var task' := Step(s, e).tasks[e.t];
    assert TaskOk(s.store, s.ledger, task);
    if task.Upsert? {
      ReadUpsertOk(s, task, e.revectorize);
    }
    TaskMoves(s, e.t, task', s.store, s.queue);
  }

  /** After a full patch every patched document is stored, and the rest are as planned. */
  lemma PatchOkKeeps(s: State, e: Event)
    requires Inv(s) && Enabled(s, e) && e.PatchOk?
    ensures Inv(Step(s, e))
  {
    var u := s.tasks[e.t];
    var u' := Step(s, e).tasks[e.t];
    var store' := Step(s, e).store;
    SameHeld(u, u');
    forall k | LockName(k) !in Held(u) ensures Lookup(store', k) == Lookup(s.store, k) {
      WriteFrame(s.store, s.ledger, u, PatchSet(u), k);
    }
    forall i | 0 <= i < |u.items|
      ensures MarkOk(store', u'.upc, KeyAt(u', i), u.items[i].doc, u.marks[i])
    {
      WriteEffect(s.store, u, PatchSet(u), i);
      assert MarkOk(s.store, Patching, KeyAt(u, i), u.items[i].doc, u.marks[i]);
      assert u.marks[i].Vectorize? ==> i in AddSet(u);
    }
    TaskMoves(s, e.t, u', store', s.queue);
  }

  lemma PatchErrKeeps(s: State, e: Event)
    requires Inv(s) && Enabled(s, e) && e.PatchErr?
    ensures Inv(Step(s, e))
  {
    var u := s.tasks[e.t];
    var store' := Step(s, e).store;
    forall k | LockName(k) !in Held(u) ensures Lookup(store', k) == Lookup(s.store, k) {
      WriteFrame(s.store, s.ledger, u, e.applied, k);
    }
    TaskMoves(s, e.t, Step(s, e).tasks[e.t], store', s.queue);
  }

  lemma AddOkKeeps(s: State, e: Event)
    requires Inv(s) && Enabled(s, e) && e.AddOk?
    ensures Inv(Step(s, e))
  {
    var u := s.tasks[e.t];
    var u' := Step(s, e).tasks[e.t];
    var store' := Step(s, e).store;
    SameHeld(u, u');
    forall k | LockName(k) !in Held(u) ensures Lookup(store', k) == Lookup(s.store, k) {
      WriteFrame(s.store, s.ledger, u, AddSet(u), k);
    }
    forall i | 0 <= i < |u.items|
      ensures MarkOk(store', Reporting, KeyAt(u', i), u.items[i].doc, u.marks[i])
    {
      WriteEffect(s.store, u, AddSet(u), i);
      assert MarkOk(s.store, Adding, KeyAt(u, i), u.items[i].doc, u.marks[i]);
    }
    TaskMoves(s, e.t, u', store', s.queue);
  }

  /** A failed attempt may have stored any part of the batch; each document is old or new. */
  lemma AddErrKeeps(s: State, e: Event)
    requires Inv(s) && Enabled(s, e) && e.AddErr?
    ensures Inv(Step(s, e))
  {
    var u := s.tasks[e.t];
    var u' := Step(s, e).tasks[e.t];
    var store' := Step(s, e).store;
    SameHeld(u, u');
    forall k | LockName(k) !in Held(u) ensures Lookup(store', k) == Lookup(s.store, k) {
      WriteFrame(s.store, s.ledger, u, e.applied, k);
    }
    forall i | 0 <= i < |u.items|
      ensures MarkOk(store', u'.upc, KeyAt(u', i), u.items[i].doc, u.marks[i])
    {
      WriteEffect(s.store, u, e.applied, i);
      assert MarkOk(s.store, Adding, KeyAt(u, i), u.items[i].doc, u.marks[i]);
    }
    TaskMoves(s, e.t, u', store', s.queue);
  }

  /** So may an earlier attempt that takes effect while the task still has its locks. */
  lemma LandKeeps(s: State, e: Event)
    requires Inv(s) && Enabled(s, e) && e.LandAdd?
    ensures Inv(Step(s, e))
  {
    var u := s.tasks[e.t];
    var store' := Step(s, e).store;
    forall k | LockName(k) !in Held(u) ensures Lookup(store', k) == Lookup(s.store, k) {
      WriteFrame(s.store, s.ledger, u, {e.i}, k);
    }
    forall i | 0 <= i < |u.items|
      ensures MarkOk(store', u.upc, KeyAt(u, i), u.items[i].doc, u.marks[i])
    {
      WriteEffect(s.store, u, {e.i}, i);
      assert MarkOk(s.store, u.upc, KeyAt(u, i), u.items[i].doc, u.marks[i]);
    }
    TaskMoves(s, e.t, u, store', s.queue);
    assert s.tasks[e.t := u] == s.tasks;
  }

  lemma DeleteKeeps(s: State, e: Event)
    requires Inv(s) && Enabled(s, e)
    requires e.CancelUpserts? || e.CancelErr? || e.DeleteDoc? || e.DeleteErr?
    ensures Inv(Step(s, e))
  {
    var s' := Step(s, e);
    TaskMoves(s, e.t, s'.tasks[e.t], s'.store, s'.queue);
  }

  /** A task that ends lets its locks go and touches nothing else. */
  lemma EndKeeps(s: State, t: nat, task: Task)
    requires Inv(s) && t in s.tasks && task.Upsert? == s.tasks[t].Upsert? && SameLoad(s.tasks[t], task)
    requires Finished(task) && TaskOk(s.store, s.ledger, task)
    ensures Inv(SetTask(s, t, task))
  {
    assert Held(task) == {};
    TaskMoves(s, t, task, s.store, s.queue);
  }

  lemma ReturnKeeps(s: State, e: Event)
    requires Inv(s) && Enabled(s, e) && (e.Report? || e.Abort?)
    ensures Inv(Step(s, e))
  {
    assert TaskOk(s.store, s.ledger, s.tasks[e.t]);
    EndKeeps(s, e.t, Step(s, e).tasks[e.t]);
  }

  lemma AckKeeps(s: State, e: Event)
    requires Inv(s) && Enabled(s, e) && (e.DropSuperseded? || e.AckUpserts? || e.AckDelete?)
    ensures Inv(Step(s, e))
  {
    QueueShrinks(s, Step(s, e).queue);
  }

  lemma MoveKeeps(s: State, e: Event)
    requires Inv(s) && Enabled(s, e) && Mover(e).Some?
    ensures Inv(Step(s, e))
  {
    match e
    case Acquire(_) => AcquireKeeps(s, e);
    case Verify(_) => VerifyKeeps(s, e);
    case Read(_, _) => ReadKeeps(s, e);
    case PatchOk(_) => PatchOkKeeps(s, e);
    case PatchErr(_, _) => PatchErrKeeps(s, e);
    case AddOk(_) => AddOkKeeps(s, e);
    case AddErr(_, _) => AddErrKeeps(s, e);
    case LandAdd(_, _) => LandKeeps(s, e);
    case Report(_) => ReturnKeeps(s, e);
    case CancelUpserts(_) => DeleteKeeps(s, e);
    case CancelErr(_, _) => DeleteKeeps(s, e);
    case DeleteDoc(_) => DeleteKeeps(s, e);
    case DeleteErr(_, _) => DeleteKeeps(s, e);
    case Abort(_) => ReturnKeeps(s, e);
    case _ =>
  }

  lemma BeginKeeps(s: State, e: Event)
    requires Inv(s) && Enabled(s, e)
    requires e.Enqueue? || e.StartUpsert? || e.StartDelete? || e.ClaimUpserts? || e.SpawnChunk? || e.ClaimDelete?
    ensures Inv(Step(s, e))
  {
    if e.Enqueue? {
      EnqueueKeeps(s, e);
    } else if e.ClaimUpserts? {
      ClaimKeeps(s, e);
    } else if e.SpawnChunk? {
      SpawnKeeps(s, e);
    } else {
      StartKeeps(s, e);
    }
  }

  /** Preservation. */
  lemma StepKeeps(s: State, e: Event)
    requires Inv(s) && Enabled(s, e)
    ensures Inv(Step(s, e))
  {
    if Mover(e).Some? {
      MoveKeeps(s, e);
    } else if e.DropSuperseded? || e.AckUpserts? || e.AckDelete? {
      AckKeeps(s, e);
    } else {
      BeginKeeps(s, e);
    }
  }

  /** Every state of every run satisfies the invariant. */
  lemma {:induction false} RunKeeps(ss: seq<State>, es: seq<Event>, n: nat)
    requires IsRun(ss, es) && n < |ss|
    ensures Inv(ss[n])
  {
    if n > 0 {
      RunKeeps(ss, es, n - 1);
      StepKeeps(ss[n - 1], es[n - 1]);
      assert ss[n - 1 + 1] == Step(ss[n - 1], es[n - 1]);
    }
  }
}

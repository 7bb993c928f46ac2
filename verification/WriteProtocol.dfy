/**
  The document write protocol as a step system.

  Sync upserts, queued upserts (claimed by the poller, split into chunks) and deletes race
  on the same store.  Every task takes per-document locks, re-reads its queue rows under
  the locks, reads the stored documents, writes, and returns; the poller acknowledges
  queue rows only afterwards, without a lock.  Taking a lock, re-verifying, reading,
  writing and acknowledging are separate steps, so tasks interleave between them.

  An `Event` names a step together with everything that is not determined by the state
  (which rows are claimed, which request fails, how much of a failed write was applied);
  `Step` is then a function.  A failed attempt to add may still store a document later, while
  its task goes on (`LandAdd`).
  */
module WriteProtocol {
  import opened Prelude
  import Lex

  const CHUNK_SIZE: nat := 16
  const ADD_MAX_ATTEMPTS: nat := 3

  datatype DocKey = DocKey(collection: string, id: string)

  /** The string whose hash names a document's lock; hashes are taken as injective. */
  function LockName(k: DocKey): string
  {
    k.collection + "-" + k.id
  }

  datatype Doc = Doc(ts: int, body: int)

  type Store = map<DocKey, Doc>

  datatype Row = UpsertRow(key: DocKey, doc: Doc) | DeleteRow(key: DocKey, ts: int)

  datatype Item = Item(id: string, doc: Doc, ticket: Option<nat>)

  /** What an upsert task has decided about one of its documents. */
  datatype Mark =
    | Unread                        // nothing yet
    | Drained                       // its queue row was gone under the lock
    | Kept                          // its queue row, if any, was still there
    | Stale                         // the store holds this timestamp or a later one
    | Patch(seen: Doc)              // overwrite the payload of `seen`
    | Vectorize(found: Option<Doc>) // write with fresh vectors

  datatype UpsertPc = Locking | Verifying | Reading | Patching | Adding | Reporting | Succeeded | Failed

  datatype DeletePc = DLocking | DVerifying | DReading | DCancelling | DDeleting | DSucceeded | DFailed

  datatype Task =
    | Upsert(collection: string, items: seq<Item>, plan: seq<string>, got: nat,
             upc: UpsertPc, marks: seq<Mark>, attempt: nat)
    | Delete(key: DocKey, ts: int, ticket: Option<nat>, dpc: DeletePc, existing: Option<Doc>)

  /** One collection's share of a claimed batch: winners in order, chunk tasks as spawned. */
  datatype Job = Job(collection: string, winners: seq<nat>, superseded: set<nat>, chunks: seq<nat>)

  /**
    `queue` holds the ids of the live queue rows.  `ledger` holds the payload of every row
    ever queued; payloads never change, and ids are never reused.
    */
  datatype State = State(store: Store, queue: set<nat>, ledger: map<nat, Row>,
                         tasks: map<nat, Task>, jobs: map<nat, Job>)

  datatype Event =
    | Enqueue(q: nat, row: Row)
    | StartUpsert(t: nat, collection: string, items: seq<Item>, plan: seq<string>)
    | StartDelete(t: nat, key: DocKey, ts: int)
    | ClaimUpserts(j: nat, collection: string, winners: seq<nat>, superseded: set<nat>)
    | SpawnChunk(j: nat, t: nat, plan: seq<string>)
    | ClaimDelete(t: nat, q: nat)
    | DropSuperseded(j: nat, q: nat)
    | Acquire(t: nat)
    | Verify(t: nat)
    | Read(t: nat, revectorize: set<nat>)
    | PatchOk(t: nat)
    | PatchErr(t: nat, applied: set<nat>)
    | AddOk(t: nat)
    | AddErr(t: nat, applied: set<nat>)
    | LandAdd(t: nat, i: nat)
    | Report(t: nat)
    | CancelUpserts(t: nat)
    | CancelErr(t: nat, removed: set<nat>)
    | DeleteDoc(t: nat)
    | DeleteErr(t: nat, took: bool)
    | Abort(t: nat)
    | AckUpserts(j: nat, removed: set<nat>)
    | AckDelete(t: nat)

  // ------------------------------------------------------------------ tasks

  function KeyAt(u: Task, i: nat): DocKey
    requires u.Upsert? && i < |u.items|
  {
    DocKey(u.collection, u.items[i].id)
  }

  function PlanName(u: Task, i: nat): string
    requires u.Upsert? && i < |u.plan|
  {
    LockName(DocKey(u.collection, u.plan[i]))
  }

  predicate Finished(task: Task)
  {
    match task
    case Upsert(_, _, _, _, pc, _, _) => pc.Succeeded? || pc.Failed?
    case Delete(_, _, _, pc, _) => pc.DSucceeded? || pc.DFailed?
  }

  /** The lock names a task holds: its guards are dropped when it returns. */
  function Held(task: Task): set<string>
  {
    match task
    case Upsert(_, _, plan, got, _, _, _) =>
      if Finished(task) then {}
      else set i | 0 <= i < got && i < |plan| :: PlanName(task, i)
    case Delete(key, _, _, pc, _) =>
      if Finished(task) || pc.DLocking? then {} else {LockName(key)}
  }

  /** The name a task will lock next, if it is still collecting locks. */
  function NextName(task: Task): Option<string>
  {
    match task
    case Upsert(_, _, plan, got, pc, _, _) =>
      if pc.Locking? && got < |plan| then Some(PlanName(task, got)) else None
    case Delete(key, _, _, pc, _) =>
      if pc.DLocking? then Some(LockName(key)) else None
  }

  predicate Free(s: State, name: string)
  {
    forall t :: t in s.tasks ==> name !in Held(s.tasks[t])
  }

  /** No two documents of one request share an id; both callers select one winner per id. */
  predicate UniqueIds(items: seq<Item>)
  {
    forall i, j :: 0 <= i < j < |items| ==> items[i].id != items[j].id
  }

  /** `plan` is the sorted, deduplicated list of the ids in `items`. */
  predicate IsPlan(plan: seq<string>, items: seq<Item>)
  {
    && Lex.StrictlySorted(plan)
    && (forall i :: 0 <= i < |items| ==> items[i].id in plan)
    && (forall i :: 0 <= i < |plan| ==> exists j :: 0 <= j < |items| && items[j].id == plan[i])
  }

  function NewUpsert(collection: string, items: seq<Item>, plan: seq<string>): Task
  {
    Upsert(collection, items, plan, 0, Locking, seq(|items|, i => Unread), 1)
  }

  function TicketItem(ledger: map<nat, Row>, q: nat): Item
    requires q in ledger && ledger[q].UpsertRow?
  {
    Item(ledger[q].key.id, ledger[q].doc, Some(q))
  }

  /** The queue ids carried by chunk number `c` of a job. */
  function ChunkIds(job: Job, c: nat): seq<nat>
    requires c * CHUNK_SIZE < |job.winners|
  {
    var lo := c * CHUNK_SIZE;
    job.winners[lo..if lo + CHUNK_SIZE < |job.winners| then lo + CHUNK_SIZE else |job.winners|]
  }

  predicate UpsertIds(s: State, qs: seq<nat>, collection: string)
  {
    forall i :: 0 <= i < |qs| ==>
      qs[i] in s.ledger && s.ledger[qs[i]].UpsertRow? && s.ledger[qs[i]].key.collection == collection
  }

  function ChunkItems(ledger: map<nat, Row>, qs: seq<nat>): (r: seq<Item>)
    requires forall i :: 0 <= i < |qs| ==> qs[i] in ledger && ledger[qs[i]].UpsertRow?
  {
    seq(|qs|, i requires 0 <= i < |qs| => TicketItem(ledger, qs[i]))
  }

  /** Row `w` makes row `q` redundant: same document, equal or later timestamp. */
  predicate Supersedes(ledger: map<nat, Row>, w: nat, q: nat)
  {
    && w in ledger && q in ledger && ledger[w].UpsertRow? && ledger[q].UpsertRow?
    && ledger[w].key == ledger[q].key && ledger[q].doc.ts <= ledger[w].doc.ts
  }

  // ------------------------------------------------------------------ decisions

  function MarkAfterVerify(queue: set<nat>, item: Item): Mark
  {
    if item.ticket.Some? && item.ticket.value !in queue then Drained else Kept
  }

  /** Partition of a document into stale, patch-only and to-vectorize. */
  function MarkAfterRead(found: Option<Doc>, doc: Doc, revectorize: bool): Mark
  {
    match found
    case None => Vectorize(None)
    case Some(stored) =>
      if doc.ts <= stored.ts then Stale
      else if revectorize then Vectorize(Some(stored))
      else Patch(stored)
  }

  function AfterVerify(s: State, u: Task): Task
    requires u.Upsert? && |u.marks| == |u.items|
  {
    var marks := seq(|u.items|, i requires 0 <= i < |u.items| => MarkAfterVerify(s.queue, u.items[i]));
    u.(marks := marks, upc := if forall i :: 0 <= i < |marks| ==> marks[i].Drained? then Succeeded else Reading)
  }

  function AfterRead(s: State, u: Task, revectorize: set<nat>): Task
    requires u.Upsert? && |u.marks| == |u.items|
  {
    u.(upc := Patching,
       marks := seq(|u.items|, i requires 0 <= i < |u.items| =>
         if u.marks[i].Kept? then MarkAfterRead(Lookup(s.store, KeyAt(u, i)), u.items[i].doc, i in revectorize)
         else u.marks[i]))
  }

  function PatchSet(u: Task): set<nat>
    requires u.Upsert? && |u.marks| == |u.items|
  {
    set i: nat | i < |u.items| && u.marks[i].Patch?
  }

  function AddSet(u: Task): set<nat>
    requires u.Upsert? && |u.marks| == |u.items|
  {
    set i: nat | i < |u.items| && u.marks[i].Vectorize?
  }

  /** The store after the documents with index in `chosen` and below `n` were written in order. */
  function WriteItems(store: Store, u: Task, chosen: set<nat>, n: nat): Store
    requires u.Upsert? && n <= |u.items|
  {
    if n == 0 then store
    else
      var before := WriteItems(store, u, chosen, n - 1);
      if n - 1 in chosen then before[KeyAt(u, n - 1) := u.items[n - 1].doc] else before
  }

  function Write(store: Store, u: Task, chosen: set<nat>): Store
    requires u.Upsert?
  {
    WriteItems(store, u, chosen, |u.items|)
  }

  /** The ids of live upsert rows for `key` that a delete at `ts` cancels. */
  function Cancelled(s: State, key: DocKey, ts: int): set<nat>
  {
    set q | q in s.queue && q in s.ledger && s.ledger[q].UpsertRow?
            && s.ledger[q].key == key && s.ledger[q].doc.ts <= ts
  }

  function AfterCancel(d: Task): Task
    requires d.Delete?
  {
    d.(dpc := if d.existing.Some? && d.existing.value.ts < d.ts then DDeleting else DSucceeded)
  }

  /** A chunk's documents whose queue rows were missing under the locks. */
  function DrainedIds(u: Task): set<string>
    requires u.Upsert?
  {
    set i | 0 <= i < |u.items| && i < |u.marks| && u.marks[i].Drained? :: u.items[i].id
  }

  predicate ReportedDrained(s: State, job: Job, id: string)
  {
    exists c :: 0 <= c < |job.chunks| && job.chunks[c] in s.tasks && s.tasks[job.chunks[c]].Upsert?
                && id in DrainedIds(s.tasks[job.chunks[c]])
  }

  /** All chunks were spawned and every one of them returned `Ok`. */
  predicate AllChunksOk(s: State, job: Job)
  {
    && |job.winners| <= |job.chunks| * CHUNK_SIZE
    && forall c :: 0 <= c < |job.chunks| ==>
         job.chunks[c] in s.tasks && s.tasks[job.chunks[c]].Upsert? && s.tasks[job.chunks[c]].upc.Succeeded?
  }

  // ------------------------------------------------------------------ steps

  predicate IsUpsertAt(s: State, t: nat, pc: UpsertPc)
  {
    t in s.tasks && s.tasks[t].Upsert? && s.tasks[t].upc == pc && |s.tasks[t].marks| == |s.tasks[t].items|
  }

  predicate IsDeleteAt(s: State, t: nat, pc: DeletePc)
  {
    t in s.tasks && s.tasks[t].Delete? && s.tasks[t].dpc == pc
  }

  predicate Enabled(s: State, e: Event)
  {
    match e
    case Enqueue(q, row) => q !in s.ledger
    case StartUpsert(t, collection, items, plan) =>
      && t !in s.tasks && items != [] && UniqueIds(items) && IsPlan(plan, items)
      && forall i :: 0 <= i < |items| ==> items[i].ticket.None?
    case StartDelete(t, key, ts) => t !in s.tasks
    case ClaimUpserts(j, collection, winners, superseded) =>
      && j !in s.jobs
      && (forall i :: 0 <= i < |winners| ==> winners[i] in s.queue)
      && UpsertIds(s, winners, collection)
      && (forall a, b :: 0 <= a < b < |winners| ==> s.ledger[winners[a]].key.id != s.ledger[winners[b]].key.id)
      && (forall q :: q in superseded ==>
            q in s.queue && exists w :: w in winners && Supersedes(s.ledger, w, q))
    case SpawnChunk(j, t, plan) =>
      && j in s.jobs && t !in s.tasks && |s.jobs[j].chunks| * CHUNK_SIZE < |s.jobs[j].winners|
      && UpsertIds(s, ChunkIds(s.jobs[j], |s.jobs[j].chunks|), s.jobs[j].collection)
      && IsPlan(plan, ChunkItems(s.ledger, ChunkIds(s.jobs[j], |s.jobs[j].chunks|)))
    case ClaimDelete(t, q) => t !in s.tasks && q in s.queue && q in s.ledger && s.ledger[q].DeleteRow?
    case DropSuperseded(j, q) => j in s.jobs && q in s.jobs[j].superseded
    case Acquire(t) =>
      && t in s.tasks && NextName(s.tasks[t]).Some? && Free(s, NextName(s.tasks[t]).value)
    case Verify(t) => IsUpsertAt(s, t, Verifying) || IsDeleteAt(s, t, DVerifying)
    case Read(t, revectorize) => IsUpsertAt(s, t, Reading) || IsDeleteAt(s, t, DReading)
    case PatchOk(t) => IsUpsertAt(s, t, Patching)
    case PatchErr(t, applied) => IsUpsertAt(s, t, Patching) && applied <= PatchSet(s.tasks[t])
    case AddOk(t) => IsUpsertAt(s, t, Adding)
    case AddErr(t, applied) => IsUpsertAt(s, t, Adding) && applied <= AddSet(s.tasks[t])
    case LandAdd(t, i) => (IsUpsertAt(s, t, Adding) || IsUpsertAt(s, t, Reporting)) && i in AddSet(s.tasks[t])
    case Report(t) => IsUpsertAt(s, t, Reporting)
    case CancelUpserts(t) => IsDeleteAt(s, t, DCancelling)
    case CancelErr(t, removed) =>
      IsDeleteAt(s, t, DCancelling) && removed <= Cancelled(s, s.tasks[t].key, s.tasks[t].ts)
    case DeleteDoc(t) => IsDeleteAt(s, t, DDeleting)
    case DeleteErr(t, took) => IsDeleteAt(s, t, DDeleting)
    case Abort(t) => t in s.tasks && !Finished(s.tasks[t])
    case AckUpserts(j, removed) =>
      && j in s.jobs && AllChunksOk(s, s.jobs[j])
      && forall q :: q in removed ==>
           q in s.jobs[j].winners && q in s.ledger && s.ledger[q].UpsertRow?
           && !ReportedDrained(s, s.jobs[j], s.ledger[q].key.id)
    case AckDelete(t) => IsDeleteAt(s, t, DSucceeded) && s.tasks[t].ticket.Some?
  }

  function Step(s: State, e: Event): State
    requires Enabled(s, e)
  {
    match e
    case Enqueue(q, row) => s.(queue := s.queue + {q}, ledger := s.ledger[q := row])
    case StartUpsert(t, collection, items, plan) => SetTask(s, t, NewUpsert(collection, items, plan))
    case StartDelete(t, key, ts) => SetTask(s, t, Delete(key, ts, None, DLocking, None))
    case ClaimUpserts(j, collection, winners, superseded) =>
      s.(jobs := s.jobs[j := Job(collection, winners, superseded, [])])
    case SpawnChunk(j, t, plan) =>
      var job := s.jobs[j];
      var items := ChunkItems(s.ledger, ChunkIds(job, |job.chunks|));
      SetTask(s, t, NewUpsert(job.collection, items, plan)).(jobs := s.jobs[j := job.(chunks := job.chunks + [t])])
    case ClaimDelete(t, q) => SetTask(s, t, Delete(s.ledger[q].key, s.ledger[q].ts, Some(q), DLocking, None))
    case DropSuperseded(j, q) => s.(queue := s.queue - {q})
    case Acquire(t) => SetTask(s, t, AfterAcquire(s.tasks[t]))
    case Verify(t) =>
      var task := s.tasks[t];
      if task.Upsert? then SetTask(s, t, AfterVerify(s, task))
      else if task.ticket.Some? && task.ticket.value !in s.queue then SetTask(s, t, task.(dpc := DFailed))
      else SetTask(s, t, task.(dpc := DReading))
    case Read(t, revectorize) =>
      var task := s.tasks[t];
      if task.Upsert? then SetTask(s, t, AfterRead(s, task, revectorize))
      else SetTask(s, t, task.(dpc := DCancelling, existing := Lookup(s.store, task.key)))
    case PatchOk(t) =>
      var u := s.tasks[t];
      SetTask(s, t, u.(upc := if AddSet(u) == {} then Reporting else Adding)).(store := Write(s.store, u, PatchSet(u)))
    case PatchErr(t, applied) =>
      SetTask(s, t, s.tasks[t].(upc := Failed)).(store := Write(s.store, s.tasks[t], applied))
    case AddOk(t) =>
      SetTask(s, t, s.tasks[t].(upc := Reporting)).(store := Write(s.store, s.tasks[t], AddSet(s.tasks[t])))
    case AddErr(t, applied) =>
      var u := s.tasks[t];
      SetTask(s, t, if u.attempt < ADD_MAX_ATTEMPTS then u.(attempt := u.attempt + 1) else u.(upc := Failed))
        .(store := Write(s.store, u, applied))
    case LandAdd(t, i) => s.(store := Write(s.store, s.tasks[t], {i}))
    case Report(t) => SetTask(s, t, s.tasks[t].(upc := Succeeded))
    case CancelUpserts(t) =>
      var d := s.tasks[t];
      SetTask(s, t, AfterCancel(d)).(queue := s.queue - Cancelled(s, d.key, d.ts))
    case CancelErr(t, removed) => SetTask(s, t, s.tasks[t].(dpc := DFailed)).(queue := s.queue - removed)
    case DeleteDoc(t) =>
      SetTask(s, t, s.tasks[t].(dpc := DSucceeded)).(store := s.store - {s.tasks[t].key})
    case DeleteErr(t, took) =>
      SetTask(s, t, s.tasks[t].(dpc := DFailed)).(store := if took then s.store - {s.tasks[t].key} else s.store)
    case Abort(t) =>
      SetTask(s, t, if s.tasks[t].Upsert? then s.tasks[t].(upc := Failed) else s.tasks[t].(dpc := DFailed))
    case AckUpserts(j, removed) => s.(queue := s.queue - removed)
    case AckDelete(t) => s.(queue := s.queue - {s.tasks[t].ticket.value})
  }

  function SetTask(s: State, t: nat, task: Task): State
  {
    s.(tasks := s.tasks[t := task])
  }

  function AfterAcquire(task: Task): Task
    requires NextName(task).Some?
  {
    match task
    case Upsert(_, _, plan, got, _, _, _) =>
      task.(got := got + 1, upc := if got + 1 == |plan| then Verifying else Locking)
    case Delete(_, _, _, _, _) => task.(dpc := DVerifying)
  }

  /** At start-up there are no tasks; the store and the queue may hold anything. */
  predicate Init(s: State)
  {
    s.tasks == map[] && s.jobs == map[] && s.queue <= s.ledger.Keys
  }

  predicate IsRun(ss: seq<State>, es: seq<Event>)
  {
    && |ss| == |es| + 1
    && Init(ss[0])
    && forall i :: 0 <= i < |es| ==> Enabled(ss[i], es[i]) && ss[i + 1] == Step(ss[i], es[i])
  }
}

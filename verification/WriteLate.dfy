/**
  Database requests that outlive their failure.  A request that timed out or was dropped may still
  take effect after the step in which its task learned of it, and after the task has let its locks go.
  */
module WriteLate {
  import opened Prelude
  import opened WriteProtocol
  import opened WriteInvariant
  import opened WriteSteps
  import opened WriteSafety
  import opened WriteProgress

  /** Item `i` of an upsert task, or the removal of a delete task, that was asked for and may still happen. */
  datatype Pending = Pending(t: nat, i: nat)

  datatype LateState = LateState(w: State, pending: set<Pending>)

  datatype LateEvent = Work(e: Event, left: set<Pending>) | Land(p: Pending)

  /** What the request a task is waiting for may still do. */
  function InFlight(task: Task): set<nat>
  {
    if task.Delete? then (if task.dpc.DDeleting? then {0} else {})
    else if |task.marks| != |task.items| then {}
    else if task.upc.Patching? then PatchSet(task)
    else if task.upc.Adding? then AddSet(task)
    else {}
  }

  function Of(t: nat, items: set<nat>): set<Pending>
  {
    set i | i in items :: Pending(t, i)
  }

  /** What a step may leave outstanding: of a failed or dropped request, what it has not done yet. */
  function MayLeave(w: State, e: Event): set<Pending>
    requires Enabled(w, e)
  {
    match e
    case PatchErr(t, applied) => Of(t, InFlight(w.tasks[t]) - applied)
    case AddErr(t, applied) => Of(t, InFlight(w.tasks[t]) - applied)
    case DeleteErr(t, took) => if took then {} else Of(t, InFlight(w.tasks[t]))
    case Abort(t) => Of(t, InFlight(w.tasks[t]))
    case _ => {}
  }

  predicate Names(w: State, p: Pending)
  {
    p.t in w.tasks && (w.tasks[p.t].Upsert? ==> p.i < |w.tasks[p.t].items|)
  }

  predicate LateEnabled(s: LateState, e: LateEvent)
  {
    match e
    case Work(x, left) => !x.LandAdd? && Enabled(s.w, x) && left <= MayLeave(s.w, x)
    case Land(p) => p in s.pending && Names(s.w, p)
  }

  function LateStep(s: LateState, e: LateEvent): LateState
    requires LateEnabled(s, e)
  {
    match e
    case Work(x, left) => LateState(Step(s.w, x), s.pending + left)
    case Land(p) =>
      var task := s.w.tasks[p.t];
      LateState(s.w.(store := if task.Upsert? then Write(s.w.store, task, {p.i}) else s.w.store - {task.key}), s.pending - {p})
  }

  predicate IsLateRun(ss: seq<LateState>, es: seq<LateEvent>)
  {
    && |ss| == |es| + 1 && Init(ss[0].w) && ss[0].pending == {}
    && forall i :: 0 <= i < |es| ==> LateEnabled(ss[i], es[i]) && ss[i + 1] == LateStep(ss[i], es[i])
  }

  /** What lands does so before its task returns, so under the locks of its task. */
  predicate Early(s: LateState, e: LateEvent)
    requires LateEnabled(s, e)
  {
    e.Land? ==> !Finished(s.w.tasks[e.p.t])
  }

  predicate IsEarlyRun(ss: seq<LateState>, es: seq<LateEvent>)
  {
    IsLateRun(ss, es) && forall i :: 0 <= i < |es| ==> Early(ss[i], es[i])
  }

  // ------------------------------------------------------------------ what is outstanding

  /** While its task runs, an outstanding write is of an earlier attempt to add the same documents. */
  predicate Known(w: State, p: Pending)
  {
    && Names(w, p)
    && (!Finished(w.tasks[p.t]) ==>
          && w.tasks[p.t].Upsert? && |w.tasks[p.t].marks| == |w.tasks[p.t].items|
          && (w.tasks[p.t].upc.Adding? || w.tasks[p.t].upc.Reporting?) && w.tasks[p.t].marks[p.i].Vectorize?)
  }

  predicate AllKnown(s: LateState)
  {
    forall p :: p in s.pending ==> Known(s.w, p)
  }

  lemma KnownStays(w: State, x: Event, w': State, p: Pending)
    requires Inv(w) && Enabled(w, x) && w' == Step(w, x) && Known(w, p)
    ensures Known(w', p)
  {
    OthersRest(w, x, w', p.t);
    if Mover(x) == Some(p.t) && w.tasks[p.t].Upsert? {
      MoverMarks(w, x, w', p.t);
      AddingGoesOn(w, x, w', p.t);
    }
  }

  lemma AddingGoesOn(w: State, x: Event, w': State, t: nat)
    requires Enabled(w, x) && w' == Step(w, x) && Mover(x) == Some(t)
    requires t in w.tasks && w.tasks[t].Upsert? && (w.tasks[t].upc.Adding? || w.tasks[t].upc.Reporting?)
    ensures t in w'.tasks && w'.tasks[t].Upsert?
    ensures w'.tasks[t].upc.Adding? || w'.tasks[t].upc.Reporting? || Finished(w'.tasks[t])
    ensures !x.Verify? && !x.Read?
  {
  }

  lemma LeftIsKnown(w: State, x: Event, w': State, p: Pending)
    requires Inv(w) && Enabled(w, x) && w' == Step(w, x) && p in MayLeave(w, x)
    ensures Known(w', p)
  {
    assert TaskOk(w.store, w.ledger, w.tasks[p.t]);
  }

  lemma StepKnown(s: LateState, e: LateEvent)
    requires Inv(s.w) && AllKnown(s) && LateEnabled(s, e)
    ensures AllKnown(LateStep(s, e))
  {
    if e.Work? {
      var w' := Step(s.w, e.e);
      forall p | p in s.pending + e.left ensures Known(w', p) {
        if p in s.pending { KnownStays(s.w, e.e, w', p); } else { LeftIsKnown(s.w, e.e, w', p); }
      }
    }
  }

  // ------------------------------------------------------------------ landing in time is harmless

  /** The step of the write protocol that an early step is. */
  function Image(e: LateEvent): Event
  {
    match e
    case Work(x, _) => x
    case Land(p) => LandAdd(p.t, p.i)
  }

  lemma EarlyIsStep(s: LateState, e: LateEvent)
    requires AllKnown(s) && LateEnabled(s, e) && Early(s, e)
    ensures Enabled(s.w, Image(e)) && LateStep(s, e).w == Step(s.w, Image(e))
  {
    if e.Land? {
      assert Known(s.w, e.p);
    }
  }

  lemma {:induction false} EarlyKeeps(ss: seq<LateState>, es: seq<LateEvent>, n: nat)
    requires IsEarlyRun(ss, es) && n < |ss|
    ensures Inv(ss[n].w) && AllKnown(ss[n])
  {
    if n > 0 {
      EarlyKeeps(ss, es, n - 1);
      EarlyIsStep(ss[n - 1], es[n - 1]);
      StepKeeps(ss[n - 1].w, Image(es[n - 1]));
      StepKnown(ss[n - 1], es[n - 1]);
      assert ss[n - 1 + 1] == LateStep(ss[n - 1], es[n - 1]);
    }
  }

  function Worlds(ss: seq<LateState>): seq<State>
  {
    seq(|ss|, i requires 0 <= i < |ss| => ss[i].w)
  }

  function Images(es: seq<LateEvent>): seq<Event>
  {
    seq(|es|, i requires 0 <= i < |es| => Image(es[i]))
  }

  /**
    If everything that lands does so before its task returns, the run is a run of the write protocol,
    state by state and step by step; so all that is proved of those holds of it.
    */
  lemma EarlyRunIsRun(ss: seq<LateState>, es: seq<LateEvent>)
    requires IsEarlyRun(ss, es)
    ensures IsRun(Worlds(ss), Images(es))
  {
    var ws, xs := Worlds(ss), Images(es);
    forall i | 0 <= i < |xs| ensures Enabled(ws[i], xs[i]) && ws[i + 1] == Step(ws[i], xs[i]) {
      EarlyKeeps(ss, es, i);
      EarlyIsStep(ss[i], es[i]);
    }
  }

  // ------------------------------------------------------------------ executions

  ghost predicate Executes(s: LateState, es: seq<LateEvent>, z: LateState)
    decreases |es|
  {
    if es == [] then s == z else LateEnabled(s, es[0]) && Executes(LateStep(s, es[0]), es[1..], z)
  }

  /** Steps after which nothing more is outstanding than before. */
  predicate Calm(es: seq<LateEvent>)
  {
    forall i :: 0 <= i < |es| ==> es[i].Work? ==> es[i].left == {}
  }

  /** The step overwrites no document by an older one and removes none but for a later delete. */
  ghost predicate Orderly(s: LateState, e: LateEvent)
    requires LateEnabled(s, e)
  {
    forall k :: k in s.w.store ==>
      SameOrNewer(s.w, LateStep(s, e).w, k) || (e.Work? && DeletesOlder(s.w, e.e, k))
  }

  /** However it goes on, if nothing more is left outstanding, the last writer wins. */
  ghost predicate Safe(s: LateState)
  {
    forall es, z, e :: Executes(s, es, z) && Calm(es) && LateEnabled(z, e) && Calm([e]) ==> Orderly(z, e)
  }

  /** With nothing outstanding nothing lands. */
  lemma {:induction false} CalmKeeps(s: LateState, es: seq<LateEvent>, z: LateState)
    requires Inv(s.w) && s.pending == {} && Executes(s, es, z) && Calm(es)
    ensures Inv(z.w) && z.pending == {}
    decreases |es|
  {
    if es != [] {
      assert es[0].Work?;
      StepKeeps(s.w, es[0].e);
      assert forall i :: 0 <= i < |es[1..]| ==> es[1..][i] == es[i + 1];
      CalmKeeps(LateStep(s, es[0]), es[1..], z);
    }
  }

  lemma NothingLands(s: LateState)
    requires Inv(s.w) && s.pending == {}
    ensures Safe(s)
  {
    forall es, z, e | Executes(s, es, z) && Calm(es) && LateEnabled(z, e) && Calm([e]) ensures Orderly(z, e) {
      CalmKeeps(s, es, z);
      forall k | k in z.w.store ensures SameOrNewer(z.w, LateStep(z, e).w, k) || DeletesOlder(z.w, e.e, k) {
        StepIsNewer(z.w, e.e, k);
      }
    }
  }

  // ------------------------------------------------------------------ runs of the write protocol inside

  function Calmly(fs: seq<Event>): seq<LateEvent>
  {
    seq(|fs|, i requires 0 <= i < |fs| => Work(fs[i], {}))
  }

  ghost predicate Runs(w: State, fs: seq<Event>, z: State)
    decreases |fs|
  {
    if fs == [] then w == z else Enabled(w, fs[0]) && !fs[0].LandAdd? && Runs(Step(w, fs[0]), fs[1..], z)
  }

  lemma RunsFirst(w: State, x: Event, fs: seq<Event>, z: State)
    requires Enabled(w, x) && !x.LandAdd? && Runs(Step(w, x), fs, z)
    ensures Runs(w, [x] + fs, z)
  {
    assert ([x] + fs)[1..] == fs;
  }

  lemma {:induction false} RunsExecute(w: State, pending: set<Pending>, fs: seq<Event>, z: State)
    requires Runs(w, fs, z)
    ensures Executes(LateState(w, pending), Calmly(fs), LateState(z, pending)) && Calm(Calmly(fs))
    decreases |fs|
  {
    if fs != [] {
      RunsExecute(Step(w, fs[0]), pending, fs[1..], z);
      assert Calmly(fs)[1..] == Calmly(fs[1..]);
      assert LateStep(LateState(w, pending), Calmly(fs)[0]) == LateState(Step(w, fs[0]), pending);
    }
  }

  lemma {:induction false} ReachesRuns(w: State, z: State, fs: seq<Event>)
    requires Reaches(w, z, fs)
    ensures Runs(w, fs, z)
    decreases |fs|
  {
    if fs != [] {
      ReachesRuns(Step(w, fs[0]), z, fs[1..]);
    }
  }

  lemma {:induction false} RunsKnown(w: State, fs: seq<Event>, z: State, p: Pending)
    requires Inv(w) && Runs(w, fs, z) && Known(w, p)
    ensures Known(z, p)
    decreases |fs|
  {
    if fs != [] {
      KnownStays(w, fs[0], Step(w, fs[0]), p);
      StepKeeps(w, fs[0]);
      RunsKnown(Step(w, fs[0]), fs[1..], z, p);
    }
  }

  /** All tasks have returned. */
  predicate Idle(w: State)
  {
    forall t :: t in w.tasks ==> Finished(w.tasks[t])
  }

  /** A new task takes the lock of its one document. */
  lemma UpsertLocks(w: State, k: DocKey, doc: Doc, u: nat) returns (w1: State, w2: State)
    requires Idle(w) && u !in w.tasks
    ensures Enabled(w, StartUpsert(u, k.collection, [Item(k.id, doc, None)], [k.id]))
    ensures w1 == Step(w, StartUpsert(u, k.collection, [Item(k.id, doc, None)], [k.id]))
    ensures Enabled(w1, Acquire(u)) && w2 == Step(w1, Acquire(u))
    ensures w2 == SetTask(w, u, Upsert(k.collection, [Item(k.id, doc, None)], [k.id], 1, Verifying, [Unread], 1))
  {
    var items := [Item(k.id, doc, None)];
    assert IsPlan([k.id], items) by {
      assert items[0].id == [k.id][0];
    }
    w1 := Step(w, StartUpsert(u, k.collection, items, [k.id]));
    assert w1.tasks[u].marks == [Unread];
    assert NextName(w1.tasks[u]) == Some(PlanName(w1.tasks[u], 0));
    assert Held(w1.tasks[u]) == {};
    w2 := Step(w1, Acquire(u));
  }

  /** It finds what is stored to be older. */
  lemma UpsertReads(w: State, k: DocKey, doc: Doc, u: nat) returns (w1: State, w2: State)
    requires u in w.tasks && w.tasks[u] == Upsert(k.collection, [Item(k.id, doc, None)], [k.id], 1, Verifying, [Unread], 1)
    requires k in w.store ==> w.store[k].ts < doc.ts
    ensures Enabled(w, Verify(u)) && w1 == Step(w, Verify(u))
    ensures Enabled(w1, Read(u, {0})) && w2 == Step(w1, Read(u, {0}))
    ensures w2 == SetTask(w, u, Upsert(k.collection, [Item(k.id, doc, None)], [k.id], 1, Patching,
                                       [Vectorize(Lookup(w.store, k))], 1))
  {
    w1 := Step(w, Verify(u));
    assert w1.tasks[u].marks == [Kept] && w1.tasks[u].marks[0].Kept?;
    assert w1.tasks[u].upc.Reading?;
    assert w1 == SetTask(w, u, w.tasks[u].(marks := [Kept], upc := Reading));
    w2 := Step(w1, Read(u, {0}));
    assert KeyAt(w1.tasks[u], 0) == k;
    assert w2.tasks[u].marks == [Vectorize(Lookup(w.store, k))];
  }

  /** And stores its document. */
  lemma UpsertWrites(w: State, k: DocKey, doc: Doc, u: nat, found: Option<Doc>) returns (w1: State, w2: State)
    requires u in w.tasks
    requires w.tasks[u] == Upsert(k.collection, [Item(k.id, doc, None)], [k.id], 1, Patching, [Vectorize(found)], 1)
    ensures Enabled(w, PatchOk(u)) && w1 == Step(w, PatchOk(u))
    ensures Enabled(w1, AddOk(u)) && w2 == Step(w1, AddOk(u))
    ensures w2 == SetTask(w, u, w.tasks[u].(upc := Reporting)).(store := w.store[k := doc])
  {
    var task := w.tasks[u];
    assert task.marks[0].Vectorize? && PatchSet(task) == {};
    forall i: nat ensures i in AddSet(task) <==> i in {0} {
      assert i in AddSet(task) <==> i < 1 && task.marks[i].Vectorize?;
    }
    assert AddSet(task) == {0};
    OneWrite(w.store, task, {}, k, doc);
    w1 := Step(w, PatchOk(u));
    assert w1 == SetTask(w, u, task.(upc := Adding));
    OneWrite(w.store, w1.tasks[u], {0}, k, doc);
    w2 := Step(w1, AddOk(u));
  }

  lemma OneWrite(store: Store, task: Task, chosen: set<nat>, k: DocKey, doc: Doc)
    requires task.Upsert? && task.collection == k.collection && task.items == [Item(k.id, doc, None)]
    ensures Write(store, task, chosen) == if 0 in chosen then store[k := doc] else store
  {
    assert KeyAt(task, 0) == k;
    assert WriteItems(store, task, chosen, 0) == store;
    assert |task.items| == 1;
  }

  /** When all tasks have returned, a new one can store a newer document. */
  lemma NewerIsStored(w: State, k: DocKey, doc: Doc) returns (fs: seq<Event>, z: State)
    requires Idle(w) && (k in w.store ==> w.store[k].ts < doc.ts)
    ensures Runs(w, fs, z) && z.store == w.store[k := doc]
    ensures forall t :: t in w.tasks ==> t in z.tasks && z.tasks[t] == w.tasks[t]
  {
    var u := Unused(w.tasks.Keys);
    var w1, w2 := UpsertLocks(w, k, doc, u);
    var w3, w4 := UpsertReads(w2, k, doc, u);
    var w5, w6 := UpsertWrites(w4, k, doc, u, Lookup(w.store, k));
    z, fs := w6, [];
    RunsFirst(w5, AddOk(u), fs, z);
    fs := [AddOk(u)] + fs;
    RunsFirst(w4, PatchOk(u), fs, z);
    fs := [PatchOk(u)] + fs;
    RunsFirst(w3, Read(u, {0}), fs, z);
    fs := [Read(u, {0})] + fs;
    RunsFirst(w2, Verify(u), fs, z);
    fs := [Verify(u)] + fs;
    RunsFirst(w1, Acquire(u), fs, z);
    fs := [Acquire(u)] + fs;
    RunsFirst(w, StartUpsert(u, k.collection, [Item(k.id, doc, None)], [k.id]), fs, z);
    fs := [StartUpsert(u, k.collection, [Item(k.id, doc, None)], [k.id])] + fs;
  }

  /** A new delete takes the lock of its document. */
  lemma DeleteLocks(w: State, k: DocKey, ts: int, d: nat) returns (fs: seq<Event>, z: State)
    requires Idle(w) && d !in w.tasks
    ensures Runs(w, fs, z) && z == SetTask(w, d, Delete(k, ts, None, DVerifying, None))
  {
    var w1 := Step(w, StartDelete(d, k, ts));
    assert Held(w1.tasks[d]) == {} && NextName(w1.tasks[d]) == Some(LockName(k));
    z := Step(w1, Acquire(d));
    RunsFirst(w1, Acquire(d), [], z);
    fs := [Acquire(d)] + [];
    RunsFirst(w, StartDelete(d, k, ts), fs, z);
    fs := [StartDelete(d, k, ts)] + fs;
  }

  /** It reads the document. */
  lemma DeleteReads(w: State, k: DocKey, ts: int, d: nat) returns (fs: seq<Event>, z: State)
    requires d in w.tasks && w.tasks[d] == Delete(k, ts, None, DVerifying, None)
    ensures Runs(w, fs, z) && z == SetTask(w, d, Delete(k, ts, None, DCancelling, Lookup(w.store, k)))
  {
    var w1 := Step(w, Verify(d));
    z := Step(w1, Read(d, {}));
    RunsFirst(w1, Read(d, {}), [], z);
    fs := [Read(d, {})] + [];
    RunsFirst(w, Verify(d), fs, z);
    fs := [Verify(d)] + fs;
  }

  /** And cancels and removes. */
  lemma DeleteEnds(w: State, k: DocKey, ts: int, d: nat) returns (fs: seq<Event>, z: State)
    requires d in w.tasks && w.tasks[d] == Delete(k, ts, None, DCancelling, Lookup(w.store, k))
    requires k in w.store ==> w.store[k].ts < ts
    ensures Runs(w, fs, z) && z.store == w.store - {k} && z.tasks == w.tasks[d := w.tasks[d].(dpc := DSucceeded)]
  {
    var w1 := Step(w, CancelUpserts(d));
    fs, z := [], w1;
    if k in w.store {
      z := Step(w1, DeleteDoc(d));
      RunsFirst(w1, DeleteDoc(d), [], z);
      fs := [DeleteDoc(d)] + [];
    } else {
      assert z.store == w.store - {k};
    }
    RunsFirst(w, CancelUpserts(d), fs, z);
    fs := [CancelUpserts(d)] + fs;
  }

  /** When all tasks have returned, a delete later than what is stored can run to its end. */
  lemma DeleteSucceeds(w: State, k: DocKey, ts: int, d: nat) returns (fs: seq<Event>, z: State)
    requires Idle(w) && d !in w.tasks && (k in w.store ==> w.store[k].ts < ts)
    ensures Runs(w, fs, z) && z.store == w.store - {k}
    ensures exists found :: z.tasks == w.tasks[d := Delete(k, ts, None, DSucceeded, found)]
  {
    var es, w1 := DeleteLocks(w, k, ts, d);
    var gs, w2 := DeleteReads(w1, k, ts, d);
    var hs;
    hs, z := DeleteEnds(w2, k, ts, d);
    RunsOn(w, es, w1, gs, w2);
    RunsOn(w, es + gs, w2, hs, z);
    fs := es + gs + hs;
    assert z.tasks == w.tasks[d := Delete(k, ts, None, DSucceeded, Lookup(w.store, k))];
  }

  // ------------------------------------------------------------------ landing late is not

  function TargetOf(w: State, p: Pending): DocKey
    requires Names(w, p)
  {
    if w.tasks[p.t].Upsert? then KeyAt(w.tasks[p.t], p.i) else w.tasks[p.t].key
  }

  /** A timestamp later than what is stored and what is outstanding. */
  lemma LaterThan(w: State, p: Pending) returns (ts: int)
    requires Names(w, p)
    ensures TargetOf(w, p) in w.store ==> w.store[TargetOf(w, p)].ts < ts
    ensures w.tasks[p.t].Upsert? ==> w.tasks[p.t].items[p.i].doc.ts < ts
  {
    var k := TargetOf(w, p);
    ts := 1;
    if k in w.store && ts <= w.store[k].ts {
      ts := w.store[k].ts + 1;
    }
    if w.tasks[p.t].Upsert? && ts <= w.tasks[p.t].items[p.i].doc.ts {
      ts := w.tasks[p.t].items[p.i].doc.ts + 1;
    }
  }

  /** Whatever is outstanding, all tasks can return before it lands. */
  lemma Outlives(s: LateState, p: Pending) returns (fs: seq<Event>, w: State)
    requires Inv(s.w) && AllKnown(s) && p in s.pending
    ensures Runs(s.w, fs, w) && Inv(w) && Idle(w) && Known(w, p)
  {
    w, fs := Drains(s.w);
    ReachesRuns(s.w, w, fs);
    RunsKnown(s.w, fs, w, p);
  }

  lemma {:induction false} RunsOn(w: State, fs: seq<Event>, m: State, gs: seq<Event>, z: State)
    requires Runs(w, fs, m) && Runs(m, gs, z)
    ensures Runs(w, fs + gs, z)
    decreases |fs|
  {
    if fs == [] {
      assert fs + gs == gs;
    } else {
      RunsOn(Step(w, fs[0]), fs[1..], m, gs, z);
      assert (fs + gs)[1..] == fs[1..] + gs;
    }
  }

  /** What lands on one document. */
  lemma LandsOn(s: LateState, p: Pending)
    requires LateEnabled(s, Land(p)) && Inv(s.w)
    ensures var task, store' := s.w.tasks[p.t], LateStep(s, Land(p)).w.store;
            Lookup(store', TargetOf(s.w, p)) == if task.Upsert? then Some(task.items[p.i].doc) else None
  {
    var task := s.w.tasks[p.t];
    assert TaskOk(s.w.store, s.w.ledger, task);
    if task.Upsert? {
      WriteEffect(s.w.store, task, {p.i}, p.i);
    }
  }

  lemma {:induction false} RunsKeep(w: State, fs: seq<Event>, z: State)
    requires Inv(w) && Runs(w, fs, z)
    ensures Inv(z)
    decreases |fs|
  {
    if fs != [] {
      StepKeeps(w, fs[0]);
      RunsKeep(Step(w, fs[0]), fs[1..], z);
    }
  }

  /** A newer document is stored, and then the outstanding write replaces or removes it. */
  lemma LateWriteWins(s: LateState, p: Pending) returns (es: seq<LateEvent>, z: LateState)
    requires Inv(s.w) && AllKnown(s) && p in s.pending
    ensures Executes(s, es, z) && Calm(es) && LateEnabled(z, Land(p)) && !Orderly(z, Land(p))
  {
    var fs, w := Outlives(s, p);
    var k := TargetOf(w, p);
    var ts := LaterThan(w, p);
    var gs, w' := NewerIsStored(w, k, Doc(ts, 0));
    RunsKeep(w, gs, w');
    RunsOn(s.w, fs, w, gs, w');
    RunsExecute(s.w, s.pending, fs + gs, w');
    es, z := Calmly(fs + gs), LateState(w', s.pending);
    LandsOn(z, p);
    assert TargetOf(z.w, p) == k && k in z.w.store && z.w.store[k].ts == ts;
    assert !SameOrNewer(z.w, LateStep(z, Land(p)).w, k);
  }

  /**
    Nothing outstanding: that is exactly when the last writer wins however the run goes on.  It is
    needed because a write that is outstanding can outlive its task.
    */
  lemma LateExactly(ss: seq<LateState>, es: seq<LateEvent>, n: nat)
    requires IsEarlyRun(ss, es) && n < |ss|
    ensures Safe(ss[n]) <==> ss[n].pending == {}
  {
    EarlyKeeps(ss, es, n);
    if ss[n].pending == {} {
      NothingLands(ss[n]);
    } else {
      var p :| p in ss[n].pending;
      var fs, z := LateWriteWins(ss[n], p);
      assert Calm([Land(p)]);
    }
  }

  /** With an upsert outstanding, a later delete can succeed and the document come back. */
  lemma LateWriteResurrects(ss: seq<LateState>, es: seq<LateEvent>, n: nat, p: Pending)
    returns (fs: seq<LateEvent>, z: LateState, d: nat)
    requires IsEarlyRun(ss, es) && n < |ss| && p in ss[n].pending && p.t in ss[n].w.tasks && ss[n].w.tasks[p.t].Upsert?
    ensures Executes(ss[n], fs, z) && Calm(fs) && LateEnabled(z, Land(p))
    ensures d in z.w.tasks && z.w.tasks[d].Delete? && z.w.tasks[d].dpc.DSucceeded? && z.w.tasks[d].key !in z.w.store
    ensures var k, store' := z.w.tasks[d].key, LateStep(z, Land(p)).w.store;
            k in store' && store'[k].ts < z.w.tasks[d].ts
  {
    EarlyKeeps(ss, es, n);
    var s := ss[n];
    var gs, w := Outlives(s, p);
    var k := TargetOf(w, p);
    var ts := LaterThan(w, p);
    d := Unused(w.tasks.Keys);
    var hs, w' := DeleteSucceeds(w, k, ts, d);
    RunsKeep(w, hs, w');
    RunsOn(s.w, gs, w, hs, w');
    RunsExecute(s.w, s.pending, gs + hs, w');
    fs, z := Calmly(gs + hs), LateState(w', s.pending);
    StaysUpsert(s.w, gs, w, p.t);
    LandsOn(z, p);
  }

  lemma {:induction false} StaysUpsert(w: State, fs: seq<Event>, z: State, t: nat)
    requires Inv(w) && Runs(w, fs, z) && t in w.tasks && w.tasks[t].Upsert?
    ensures t in z.tasks && z.tasks[t].Upsert?
    decreases |fs|
  {
    if fs != [] {
      var w' := Step(w, fs[0]);
      OthersRest(w, fs[0], w', t);
      if Mover(fs[0]) == Some(t) { MoverMarks(w, fs[0], w', t); }
      StepKeeps(w, fs[0]);
      StaysUpsert(w', fs[1..], z, t);
    }
  }
}

/**
  The write protocol on top of a lock layer.  The protocol lets a task take a lock when no task holds
  the name; here the task takes it when the layer says so, and all that is known of the layer is that
  its holders have different names.
  */
module WriteLocks {
  import opened Prelude
  import opened WriteProtocol
  import opened WriteInvariant
  import WriteSteps
  import WriteSafety

  /** The layer's holders: each locker with the write task it works for and the name it holds. */
  type Table = map<nat, (nat, string)>

  predicate Exclusive(table: Table)
  {
    forall l, m :: l in table && m in table && table[l].1 == table[m].1 ==> l == m
  }

  predicate HasHolder(table: Table, t: nat, name: string)
  {
    exists l :: l in table && table[l] == (t, name)
  }

  /** Whatever lock a write task counts on, a locker of its own holds. */
  predicate Backs(table: Table, w: State)
  {
    forall t, name :: t in w.tasks && name in Held(w.tasks[t]) ==> HasHolder(table, t, name)
  }

  datatype Joint = Joint(w: State, table: Table)

  /** The layer grants a lock, the task works, the layer takes a lock back that its task has let go, or nothing changes here. */
  datatype JointEvent = Lock(l: nat, t: nat) | Work(e: Event) | Unlock(l: nat) | Rest

  predicate JointEnabled(j: Joint, e: JointEvent)
  {
    match e
    case Lock(l, t) => l !in j.table && t in j.w.tasks && NextName(j.w.tasks[t]).Some?
    case Work(x) => !x.Acquire? && Enabled(j.w, x)
    case Unlock(l) =>
      l in j.table && (j.table[l].0 in j.w.tasks ==> j.table[l].1 !in Held(j.w.tasks[j.table[l].0]))
    case Rest => true
  }

  function JointStep(j: Joint, e: JointEvent): Joint
    requires JointEnabled(j, e)
  {
    match e
    case Lock(l, t) =>
      var task := j.w.tasks[t];
      Joint(SetTask(j.w, t, AfterAcquire(task)), j.table[l := (t, NextName(task).value)])
    case Work(x) => j.(w := Step(j.w, x))
    case Unlock(l) => j.(table := j.table - {l})
    case Rest => j
  }

  /** A run of the two together in which the layer keeps its promise. */
  predicate JointRun(js: seq<Joint>, es: seq<JointEvent>)
  {
    && |js| == |es| + 1 && Init(js[0].w) && js[0].table == map[]
    && (forall i :: 0 <= i < |js| ==> Exclusive(js[i].table))
    && forall i :: 0 <= i < |es| ==> JointEnabled(js[i], es[i]) && js[i + 1] == JointStep(js[i], es[i])
  }

  // ------------------------------------------------------------------ what tasks hold

  lemma AcquireHeld(task: Task, name: string)
    requires NextName(task).Some? && name in Held(AfterAcquire(task))
    ensures name in Held(task) || name == NextName(task).value
  {
    if task.Upsert? {
      var task' := AfterAcquire(task);
      var i :| 0 <= i < task'.got && i < |task'.plan| && name == PlanName(task', i);
      assert PlanName(task, i) == name;
    }
  }

  /** What a step other than taking a lock does to one task: nothing, or it goes on with the same plan. */
  predicate GoesOn(task: Task, task': Task)
  {
    || task' == task
    || (task.Upsert? && task'.Upsert? && !Finished(task) && task.collection == task'.collection
        && task.plan == task'.plan && task.got == task'.got)
    || (task.Delete? && task'.Delete? && task.key == task'.key
        && (Finished(task') || (!task.dpc.DLocking? && !Finished(task))))
  }

  lemma MoverGoesOn(w: State, x: Event, w': State, t: nat)
    requires Enabled(w, x) && !x.Acquire? && w' == Step(w, x) && Mover(x) == Some(t)
    ensures t in w.tasks && t in w'.tasks && GoesOn(w.tasks[t], w'.tasks[t])
  {
  }

  lemma NewHoldsNothing(w: State, x: Event, w': State, t: nat)
    requires Enabled(w, x) && w' == Step(w, x) && Mover(x).None? && t in w'.tasks && t !in w.tasks
    ensures Held(w'.tasks[t]) == {}
  {
  }

  lemma WorkGoesOn(w: State, x: Event, w': State, t: nat)
    requires Enabled(w, x) && !x.Acquire? && w' == Step(w, x) && t in w'.tasks
    ensures if t in w.tasks then GoesOn(w.tasks[t], w'.tasks[t]) else Held(w'.tasks[t]) == {}
  {
    WriteSafety.OthersRest(w, x, w', t);
    if Mover(x) == Some(t) {
      MoverGoesOn(w, x, w', t);
    } else if t !in w.tasks {
      assert Mover(x).None?;
      NewHoldsNothing(w, x, w', t);
    }
  }

  lemma WorkHolds(w: State, x: Event, w': State, t: nat, name: string)
    requires Enabled(w, x) && !x.Acquire? && w' == Step(w, x) && t in w'.tasks && name in Held(w'.tasks[t])
    ensures t in w.tasks && name in Held(w.tasks[t])
  {
    WorkGoesOn(w, x, w', t);
    if w'.tasks[t] != w.tasks[t] && w'.tasks[t].Upsert? {
      WriteSteps.SameHeld(w.tasks[t], w'.tasks[t]);
    }
  }

  // ------------------------------------------------------------------ the layer is enough

  /** When the layer grants a name, no write task holds it. */
  lemma GrantedIsFree(j: Joint, l: nat, t: nat)
    requires Backs(j.table, j.w) && JointEnabled(j, Lock(l, t)) && Exclusive(JointStep(j, Lock(l, t)).table)
    ensures Enabled(j.w, Acquire(t)) && JointStep(j, Lock(l, t)).w == Step(j.w, Acquire(t))
  {
    var name := NextName(j.w.tasks[t]).value;
    var table' := JointStep(j, Lock(l, t)).table;
    forall m | m in j.table ensures j.table[m].1 != name {
      assert m in table' && table'[m] == j.table[m] && table'[l].1 == name;
    }
    assert forall u :: u in j.w.tasks ==> !HasHolder(j.table, u, name);
  }

  lemma LockBacks(j: Joint, l: nat, t: nat)
    requires Backs(j.table, j.w) && JointEnabled(j, Lock(l, t))
    ensures Backs(JointStep(j, Lock(l, t)).table, JointStep(j, Lock(l, t)).w)
  {
    var j' := JointStep(j, Lock(l, t));
    var task := j.w.tasks[t];
    forall u, name | u in j'.w.tasks && name in Held(j'.w.tasks[u]) ensures HasHolder(j'.table, u, name) {
      if u == t {
        AcquireHeld(task, name);
      }
      if u == t && name == NextName(task).value {
        assert j'.table[l] == (u, name);
      } else {
        assert HasHolder(j.table, u, name);
        var m :| m in j.table && j.table[m] == (u, name);
        assert j'.table[m] == (u, name);
      }
    }
  }

  lemma StepBacks(j: Joint, e: JointEvent)
    requires Backs(j.table, j.w) && JointEnabled(j, e)
    ensures Backs(JointStep(j, e).table, JointStep(j, e).w)
  {
    var j' := JointStep(j, e);
    match e
    case Lock(l, t) => LockBacks(j, l, t);
    case Work(x) =>
      forall t, name | t in j'.w.tasks && name in Held(j'.w.tasks[t]) ensures HasHolder(j'.table, t, name) {
        WorkHolds(j.w, x, j'.w, t, name);
      }
    case Unlock(l) =>
      forall t, name | t in j.w.tasks && name in Held(j.w.tasks[t]) ensures HasHolder(j'.table, t, name) {
        assert HasHolder(j.table, t, name);
        var m :| m in j.table && j.table[m] == (t, name);
        assert j'.table[m] == (t, name);
      }
    case Rest =>
  }

  /** State `i` of the run together is state `at[i]` of the run `ws`, which has no other end. */
  predicate Traces(ws: seq<State>, at: seq<nat>, js: seq<Joint>, n: nat)
    requires n < |js|
  {
    && |at| == n + 1 && at[n] == |ws| - 1
    && (forall i :: 0 <= i <= n ==> at[i] < |ws| && ws[at[i]] == js[i].w)
    && (forall i, j :: 0 <= i < j <= n ==> at[i] <= at[j])
  }

  lemma TracesPush(ws: seq<State>, at: seq<nat>, js: seq<Joint>, n: nat, ws': seq<State>)
    requires 0 < n < |js| && Traces(ws, at, js, n - 1) && ws <= ws' && ws' != [] && ws'[|ws'| - 1] == js[n].w
    ensures Traces(ws', at + [|ws'| - 1], js, n)
  {
  }

  /**
    Such a run is a run of the write protocol, in which the layer's steps pass unseen and whose guard on
    locks the layer makes true.  So everything proved of that protocol's runs holds here.
    */
  lemma {:induction false} LayerImplementsLocks(js: seq<Joint>, es: seq<JointEvent>, n: nat)
    returns (ws: seq<State>, xs: seq<Event>, at: seq<nat>)
    requires JointRun(js, es) && n < |js|
    ensures Backs(js[n].table, js[n].w)
    ensures IsRun(ws, xs) && Traces(ws, at, js, n)
  {
    if n == 0 {
      ws, xs, at := [js[0].w], [], [0];
    } else {
      ws, xs, at := LayerImplementsLocks(js, es, n - 1);
      var j, e := js[n - 1], es[n - 1];
      assert js[n - 1 + 1] == JointStep(j, e);
      StepBacks(j, e);
      var ws0 := ws;
      if e.Lock? {
        GrantedIsFree(j, e.l, e.t);
        ws, xs := Extend(ws, xs, Acquire(e.t));
      } else if e.Work? {
        ws, xs := Extend(ws, xs, e.e);
      }
      TracesPush(ws0, at, js, n, ws);
      at := at + [|ws| - 1];
    }
  }

  lemma Extend(ws: seq<State>, xs: seq<Event>, x: Event) returns (ws': seq<State>, xs': seq<Event>)
    requires IsRun(ws, xs) && Enabled(ws[|xs|], x)
    ensures IsRun(ws', xs') && ws' == ws + [Step(ws[|xs|], x)]
  {
    ws', xs' := ws + [Step(ws[|xs|], x)], xs + [x];
    forall i | 0 <= i < |xs'| ensures Enabled(ws'[i], xs'[i]) && ws'[i + 1] == Step(ws'[i], xs'[i]) {
      if i < |xs| {
        assert ws'[i] == ws[i] && ws'[i + 1] == ws[i + 1] && xs'[i] == xs[i];
      }
    }
  }
}

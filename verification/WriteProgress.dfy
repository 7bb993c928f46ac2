/**
  Deadlock freedom.  Locks are taken in the order of the document ids, and since all names
  of one request share the prefix `collection-`, that is also the order of the lock names,
  across collections and even where names of different collections coincide.
  */
module WriteProgress {
  import opened Prelude
  import opened WriteProtocol
  import opened WriteInvariant
  import opened WriteSteps
  import Lex

  predicate Blocked(s: State, t: nat)
  {
    t in s.tasks && NextName(s.tasks[t]).Some? && !Free(s, NextName(s.tasks[t]).value)
  }

  /** Ids in plan order give lock names in the same order. */
  lemma PlanNamesSorted(u: Task, i: nat, j: nat)
    requires u.Upsert? && Lex.StrictlySorted(u.plan) && i < j < |u.plan|
    ensures Lex.Less(PlanName(u, i), PlanName(u, j))
  {
    Lex.UnderPrefix(u.collection + "-", u.plan[i], u.plan[j]);
  }

  /** A task waits only for a name above everything it holds. */
  lemma WaitsUpward(ledger: map<nat, Row>, task: Task, name: string)
    requires NextName(task).Some? && name in Held(task)
    requires task.Upsert? ==> UpsertShape(ledger, task)
    ensures Lex.Less(name, NextName(task).value)
  {
    var i :| 0 <= i < task.got && i < |task.plan| && name == PlanName(task, i);
    PlanNamesSorted(task, i, task.got);
  }

  ghost function WaitersAbove(s: State, name: string): set<nat>
  {
    set t | t in s.tasks && Blocked(s, t) && Lex.Less(name, NextName(s.tasks[t]).value)
  }

  /** Following holders from any waiter ends at a task that holds a lock and is not blocked. */
  lemma RunnableHolder(s: State, t: nat) returns (h: nat)
    requires Inv(s) && Blocked(s, t)
    ensures h in s.tasks && Held(s.tasks[h]) != {} && !Finished(s.tasks[h]) && !Blocked(s, h)
    decreases WaitersAbove(s, NextName(s.tasks[t]).value)
  {
    var name := NextName(s.tasks[t]).value;
    h :| h in s.tasks && name in Held(s.tasks[h]);
    if Blocked(s, h) {
      var above := NextName(s.tasks[h]).value;
      assert TaskOk(s.store, s.ledger, s.tasks[h]);
      WaitsUpward(s.ledger, s.tasks[h], name);
      forall u | u in WaitersAbove(s, above) ensures u in WaitersAbove(s, name) {
        Lex.Transitive(name, above, NextName(s.tasks[u]).value);
      }
      Lex.Irreflexive(above);
      assert h in WaitersAbove(s, name) && h !in WaitersAbove(s, above);
      h := RunnableHolder(s, h);
    }
  }

  // ------------------------------------------------------------------ every task can finish

  /** The next step of a task when no request fails. */
  function Forward(task: Task, t: nat): Event
    requires !Finished(task)
  {
    match task
    case Upsert(_, _, _, _, pc, _, _) =>
      (match pc
       case Locking => Acquire(t)
       case Verifying => Verify(t)
       case Reading => Read(t, {})
       case Patching => PatchOk(t)
       case Adding => AddOk(t)
       case Reporting => Report(t))
    case Delete(_, _, _, pc, _) =>
      (match pc
       case DLocking => Acquire(t)
       case DVerifying => Verify(t)
       case DReading => Read(t, {})
       case DCancelling => CancelUpserts(t)
       case DDeleting => DeleteDoc(t))
  }

  /** How many forward steps a task has at most left. */
  function Rank(task: Task): nat
  {
    match task
    case Upsert(_, _, plan, got, pc, _, _) =>
      (match pc
       case Locking => if got < |plan| then |plan| - got + 5 else 5
       case Verifying => 5
       case Reading => 4
       case Patching => 3
       case Adding => 2
       case Reporting => 1
       case Succeeded => 0
       case Failed => 0)
    case Delete(_, _, _, pc, _) =>
      (match pc
       case DLocking => 5
       case DVerifying => 4
       case DReading => 3
       case DCancelling => 2
       case DDeleting => 1
       case DSucceeded => 0
       case DFailed => 0)
  }

  /** The step moves task `t` alone and brings it closer to returning. */
  predicate Advances(s: State, s': State, t: nat)
    requires t in s.tasks
  {
    && s'.tasks.Keys == s.tasks.Keys && Rank(s'.tasks[t]) < Rank(s.tasks[t])
    && forall u :: u in s.tasks && u != t ==> s'.tasks[u] == s.tasks[u]
  }

  lemma LockStep(s: State, t: nat)
    requires t in s.tasks && NextName(s.tasks[t]).Some? && !Blocked(s, t)
    ensures Enabled(s, Acquire(t)) && Advances(s, Step(s, Acquire(t)), t)
  {
  }

  lemma UpsertForward(s: State, t: nat, e: Event)
    requires t in s.tasks && s.tasks[t].Upsert? && !Finished(s.tasks[t]) && !s.tasks[t].upc.Locking?
    requires |s.tasks[t].marks| == |s.tasks[t].items|
    requires e == Forward(s.tasks[t], t)
    ensures Enabled(s, e) && Advances(s, Step(s, e), t)
  {
  }

  lemma DeleteForward(s: State, t: nat, e: Event)
    requires t in s.tasks && s.tasks[t].Delete? && !Finished(s.tasks[t]) && !s.tasks[t].dpc.DLocking?
    requires e == Forward(s.tasks[t], t)
    ensures Enabled(s, e) && Advances(s, Step(s, e), t)
  {
  }

  /** An unblocked task can take its next step. */
  lemma ForwardStep(s: State, t: nat)
    requires Inv(s) && t in s.tasks && !Finished(s.tasks[t]) && !Blocked(s, t)
    ensures Enabled(s, Forward(s.tasks[t], t)) && Advances(s, Step(s, Forward(s.tasks[t], t)), t)
  {
    var task := s.tasks[t];
    assert TaskOk(s.store, s.ledger, task);
    if NextName(task).Some? {
      LockStep(s, t);
    } else if task.Upsert? {
      UpsertForward(s, t, Forward(task, t));
    } else {
      DeleteForward(s, t, Forward(task, t));
    }
  }

  ghost function Total(tasks: map<nat, Task>, ids: set<nat>): nat
    requires ids <= tasks.Keys
  {
    if ids == {} then 0 else var t :| t in ids; Rank(tasks[t]) + Total(tasks, ids - {t})
  }

  lemma {:induction false} TotalSplit(tasks: map<nat, Task>, ids: set<nat>, t: nat)
    requires ids <= tasks.Keys && t in ids
    ensures Total(tasks, ids) == Rank(tasks[t]) + Total(tasks, ids - {t})
    decreases |ids|
  {
    var u :| u in ids && Total(tasks, ids) == Rank(tasks[u]) + Total(tasks, ids - {u});
    if u != t {
      TotalSplit(tasks, ids - {u}, t);
      TotalSplit(tasks, ids - {t}, u);
      assert ids - {u} - {t} == ids - {t} - {u};
    }
  }

  lemma {:induction false} TotalSame(tasks: map<nat, Task>, tasks': map<nat, Task>, ids: set<nat>)
    requires ids <= tasks.Keys && ids <= tasks'.Keys
    requires forall t :: t in ids ==> Rank(tasks[t]) == Rank(tasks'[t])
    ensures Total(tasks, ids) == Total(tasks', ids)
    decreases |ids|
  {
    if ids != {} {
      var t :| t in ids;
      TotalSplit(tasks, ids, t);
      TotalSplit(tasks', ids, t);
      TotalSame(tasks, tasks', ids - {t});
    }
  }

  lemma TotalDrops(tasks: map<nat, Task>, tasks': map<nat, Task>, t: nat)
    requires tasks.Keys == tasks'.Keys && t in tasks && Rank(tasks'[t]) < Rank(tasks[t])
    requires forall u :: u in tasks && u != t ==> tasks'[u] == tasks[u]
    ensures Total(tasks', tasks'.Keys) < Total(tasks, tasks.Keys)
  {
    TotalSplit(tasks, tasks.Keys, t);
    TotalSplit(tasks', tasks.Keys, t);
    TotalSame(tasks, tasks', tasks.Keys - {t});
  }

  /** `s` reaches `z` by steps in which no request fails and no task is started. */
  ghost predicate Reaches(s: State, z: State, es: seq<Event>)
    decreases |es|
  {
    if es == [] then s == z
    else
      && (exists t :: t in s.tasks && !Finished(s.tasks[t]) && es[0] == Forward(s.tasks[t], t))
      && Enabled(s, es[0]) && Reaches(Step(s, es[0]), z, es[1..])
  }

  /** One runnable task exists whenever some task has not returned. */
  lemma SomeoneRuns(s: State, t: nat) returns (h: nat)
    requires Inv(s) && t in s.tasks && !Finished(s.tasks[t])
    ensures h in s.tasks && !Finished(s.tasks[h]) && !Blocked(s, h)
  {
    if Blocked(s, t) { h := RunnableHolder(s, t); } else { h := t; }
  }

  /**
    No deadlock.  From every state of every run the tasks in flight can all return,
    with every lock released, by steps of those tasks alone.
    */
  lemma {:induction false} Drains(s: State) returns (z: State, es: seq<Event>)
    requires Inv(s)
    ensures Reaches(s, z, es) && Inv(z)
    ensures z.tasks.Keys == s.tasks.Keys && forall t :: t in z.tasks ==> Finished(z.tasks[t]) && Held(z.tasks[t]) == {}
    decreases Total(s.tasks, s.tasks.Keys)
  {
    if t :| t in s.tasks && !Finished(s.tasks[t]) {
      var h := SomeoneRuns(s, t);
      var e := Forward(s.tasks[h], h);
      ForwardStep(s, h);
      StepKeeps(s, e);
      TotalDrops(s.tasks, Step(s, e).tasks, h);
      var rest;
      z, rest := Drains(Step(s, e));
      es := [e] + rest;
      assert es[1..] == rest;
    } else {
      z, es := s, [];
    }
  }

  /** Deadlock freedom for runs: a waiter implies a lock holder that can take a real step. */
  lemma NoDeadlock(ss: seq<State>, es: seq<Event>, n: nat, t: nat)
    requires IsRun(ss, es) && n < |ss| && Blocked(ss[n], t)
    ensures exists h :: h in ss[n].tasks && Held(ss[n].tasks[h]) != {} && !Finished(ss[n].tasks[h])
                        && Enabled(ss[n], Forward(ss[n].tasks[h], h))
  {
    RunKeeps(ss, es, n);
    var h := RunnableHolder(ss[n], t);
    ForwardStep(ss[n], h);
  }
}

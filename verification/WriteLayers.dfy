/**
  The write tasks run over each of the two lock layers.  A locker of the layer works for a write task;
  the task goes on when the layer lets its locker in, and the locker leaves after the task has let the
  name go.
  */
module WriteLayers {
  import opened Prelude
  import opened WriteProtocol
  import opened WriteLocks
  import LockRegistry
  import LockService

  /** A write task takes the lock it is waiting for. */
  predicate Wants(w: State, t: nat, name: string)
  {
    t in w.tasks && NextName(w.tasks[t]) == Some(name)
  }

  predicate HasLetGo(w: State, t: nat, name: string)
  {
    t in w.tasks ==> name !in Held(w.tasks[t])
  }

  // ------------------------------------------------------------------ the registry of mutexes

  datatype OverRegistry = OverRegistry(w: State, r: LockRegistry.State)

  datatype RegistryEvent = Task(x: Event) | Locker(e: LockRegistry.Event)

  /** The holders of the registry's mutexes. */
  function RegistryTable(r: LockRegistry.State, works: nat -> nat): Table
  {
    map l | l in r.tasks && r.tasks[l].Holding? :: (works(l), r.tasks[l].key)
  }

  predicate RegistryEnabled(c: OverRegistry, e: RegistryEvent, works: nat -> nat)
  {
    match e
    case Task(x) => !x.Acquire? && Enabled(c.w, x)
    case Locker(l) =>
      && LockRegistry.Enabled(c.r, l)
      && (l.Grant? ==> Wants(c.w, works(l.t), c.r.tasks[l.t].key))
      && (l.Unlock? ==> HasLetGo(c.w, works(l.t), c.r.tasks[l.t].key))
  }

  function RegistryStep(c: OverRegistry, e: RegistryEvent, works: nat -> nat): OverRegistry
    requires RegistryEnabled(c, e, works)
  {
    match e
    case Task(x) => c.(w := Step(c.w, x))
    case Locker(l) =>
      OverRegistry(if l.Grant? then SetTask(c.w, works(l.t), AfterAcquire(c.w.tasks[works(l.t)])) else c.w,
                   LockRegistry.Step(c.r, l))
  }

  predicate IsRegistryRun(cs: seq<OverRegistry>, es: seq<RegistryEvent>, works: nat -> nat)
  {
    && |cs| == |es| + 1 && Init(cs[0].w) && LockRegistry.Init(cs[0].r)
    && forall i :: 0 <= i < |es| ==> RegistryEnabled(cs[i], es[i], works) && cs[i + 1] == RegistryStep(cs[i], es[i], works)
  }

  lemma {:induction false} RegistryKeeps(cs: seq<OverRegistry>, es: seq<RegistryEvent>, works: nat -> nat, n: nat)
    requires IsRegistryRun(cs, es, works) && n < |cs|
    ensures LockRegistry.Inv(cs[n].r)
  {
    if n == 0 {
      LockRegistry.RunKeeps([cs[0].r], [], 0);
    } else {
      RegistryKeeps(cs, es, works, n - 1);
      assert cs[n - 1 + 1] == RegistryStep(cs[n - 1], es[n - 1], works);
      if es[n - 1].Locker? {
        LockRegistry.StepKeeps(cs[n - 1].r, es[n - 1].e);
      }
    }
  }

  /** Two holders of one key would own its mutex both. */
  lemma RegistryIsExclusive(r: LockRegistry.State, works: nat -> nat)
    requires LockRegistry.Inv(r)
    ensures Exclusive(RegistryTable(r, works))
  {
  }

  function RegistryJoint(c: OverRegistry, works: nat -> nat): Joint
  {
    Joint(c.w, RegistryTable(c.r, works))
  }

  /** What a step is for the write tasks and the table of holders. */
  function RegistryImage(e: RegistryEvent, works: nat -> nat): JointEvent
  {
    match e
    case Task(x) => Work(x)
    case Locker(l) =>
      if l.Grant? then Lock(l.t, works(l.t)) else if l.Unlock? then Unlock(l.t) else Rest
  }

  lemma RegistryStepIsJoint(c: OverRegistry, e: RegistryEvent, works: nat -> nat)
    requires RegistryEnabled(c, e, works)
    ensures JointEnabled(RegistryJoint(c, works), RegistryImage(e, works))
    ensures RegistryJoint(RegistryStep(c, e, works), works) == JointStep(RegistryJoint(c, works), RegistryImage(e, works))
  {
    if e.Locker? {
      RegistryTableMoves(c.r, e.e, works);
    }
  }

  /** Only granting and unlocking change who holds what. */
  lemma RegistryTableMoves(r: LockRegistry.State, l: LockRegistry.Event, works: nat -> nat)
    requires LockRegistry.Enabled(r, l)
    ensures var table, table' := RegistryTable(r, works), RegistryTable(LockRegistry.Step(r, l), works);
            table' == if l.Grant? then table[l.t := (works(l.t), r.tasks[l.t].key)]
                      else if l.Unlock? then table - {l.t} else table
  {
  }

  /** The write tasks over the registry: a run of the write protocol. */
  lemma WritesOverRegistry(cs: seq<OverRegistry>, es: seq<RegistryEvent>, works: nat -> nat)
    returns (ws: seq<State>, xs: seq<Event>, at: seq<nat>)
    requires IsRegistryRun(cs, es, works)
    ensures IsRun(ws, xs) && |at| == |cs|
    ensures forall i :: 0 <= i < |cs| ==> at[i] < |ws| && ws[at[i]] == cs[i].w
    ensures forall i, j :: 0 <= i < j < |cs| ==> at[i] <= at[j]
  {
    var js := seq(|cs|, i requires 0 <= i < |cs| => RegistryJoint(cs[i], works));
    var ys := seq(|es|, i requires 0 <= i < |es| => RegistryImage(es[i], works));
    forall i | 0 <= i < |js| ensures Exclusive(js[i].table) {
      RegistryKeeps(cs, es, works, i);
      RegistryIsExclusive(cs[i].r, works);
    }
    forall i | 0 <= i < |ys| ensures JointEnabled(js[i], ys[i]) && js[i + 1] == JointStep(js[i], ys[i]) {
      RegistryStepIsJoint(cs[i], es[i], works);
    }
    ws, xs, at := LayerImplementsLocks(js, ys, |cs| - 1);
    assert forall i :: 0 <= i < |cs| ==> js[i].w == cs[i].w;
  }

  // ------------------------------------------------------------------ the lock service

  datatype OverService = OverService(w: State, s: LockService.State)

  datatype ServiceEvent = TaskOf(x: Event) | Client(e: LockService.Event)

  /** The tasks in the critical sections of the lock service. */
  function ServiceTable(s: LockService.State, works: nat -> nat): Table
  {
    map l | l in s.tasks && s.tasks[l].phase.Critical? :: (works(l), s.tasks[l].name)
  }

  predicate ServiceEnabled(c: OverService, e: ServiceEvent, works: nat -> nat)
  {
    match e
    case TaskOf(x) => !x.Acquire? && Enabled(c.w, x)
    case Client(l) =>
      && LockService.Enabled(c.s, l)
      && (l.Receive? ==> Wants(c.w, works(l.t), c.s.tasks[l.t].name))
      && (l.BeginRelease? ==> HasLetGo(c.w, works(l.t), c.s.tasks[l.t].name))
  }

  function ServiceStep(c: OverService, e: ServiceEvent, works: nat -> nat): OverService
    requires ServiceEnabled(c, e, works)
  {
    match e
    case TaskOf(x) => c.(w := Step(c.w, x))
    case Client(l) =>
      OverService(if l.Receive? then SetTask(c.w, works(l.t), AfterAcquire(c.w.tasks[works(l.t)])) else c.w,
                  LockService.Step(c.s, l))
  }

  /** In which the service frees no name that some client relies on. */
  ghost predicate IsServiceRun(cs: seq<OverService>, es: seq<ServiceEvent>, works: nat -> nat)
  {
    && |cs| == |es| + 1 && Init(cs[0].w) && cs[0].s == LockService.Empty
    && (forall i :: 0 <= i < |es| ==> ServiceEnabled(cs[i], es[i], works) && cs[i + 1] == ServiceStep(cs[i], es[i], works))
    && forall i :: 0 <= i < |es| && es[i].Client? ==> LockService.Respectful(cs[i].s, es[i].e)
  }

  lemma {:induction false} ServiceKeeps(cs: seq<OverService>, es: seq<ServiceEvent>, works: nat -> nat, n: nat)
    requires IsServiceRun(cs, es, works) && n < |cs|
    ensures LockService.Inv(cs[n].s)
  {
    if n == 0 {
      LockService.RunKeeps([cs[0].s], [], 0);
    } else {
      ServiceKeeps(cs, es, works, n - 1);
      assert cs[n - 1 + 1] == ServiceStep(cs[n - 1], es[n - 1], works);
      if es[n - 1].Client? {
        LockService.StepKeeps(cs[n - 1].s, es[n - 1].e);
      }
    }
  }

  /** Two critical tasks of one name would be one. */
  lemma ServiceIsExclusive(s: LockService.State, works: nat -> nat)
    requires LockService.Inv(s)
    ensures Exclusive(ServiceTable(s, works))
  {
    LockService.InvExcludes(s);
  }

  function ServiceJoint(c: OverService, works: nat -> nat): Joint
  {
    Joint(c.w, ServiceTable(c.s, works))
  }

  function ServiceImage(e: ServiceEvent, works: nat -> nat): JointEvent
  {
    match e
    case TaskOf(x) => Work(x)
    case Client(l) =>
      if l.Receive? then Lock(l.t, works(l.t)) else if l.BeginRelease? then Unlock(l.t) else Rest
  }

  lemma ServiceStepIsJoint(c: OverService, e: ServiceEvent, works: nat -> nat)
    requires ServiceEnabled(c, e, works)
    ensures JointEnabled(ServiceJoint(c, works), ServiceImage(e, works))
    ensures ServiceJoint(ServiceStep(c, e, works), works) == JointStep(ServiceJoint(c, works), ServiceImage(e, works))
  {
    if e.Client? {
      ServiceTableMoves(c.s, e.e, works);
    }
  }

  /** Only entering and leaving the critical section change who holds what. */
  lemma ServiceTableMoves(s: LockService.State, l: LockService.Event, works: nat -> nat)
    requires LockService.Enabled(s, l)
    ensures var table, table' := ServiceTable(s, works), ServiceTable(LockService.Step(s, l), works);
            table' == if l.Receive? then table[l.t := (works(l.t), s.tasks[l.t].name)]
                      else if l.BeginRelease? then table - {l.t} else table
  {
  }

  /** The write tasks over the lock service: a run of the write protocol. */
  lemma WritesOverService(cs: seq<OverService>, es: seq<ServiceEvent>, works: nat -> nat)
    returns (ws: seq<State>, xs: seq<Event>, at: seq<nat>)
    requires IsServiceRun(cs, es, works)
    ensures IsRun(ws, xs) && |at| == |cs|
    ensures forall i :: 0 <= i < |cs| ==> at[i] < |ws| && ws[at[i]] == cs[i].w
    ensures forall i, j :: 0 <= i < j < |cs| ==> at[i] <= at[j]
  {
    var js := seq(|cs|, i requires 0 <= i < |cs| => ServiceJoint(cs[i], works));
    var ys := seq(|es|, i requires 0 <= i < |es| => ServiceImage(es[i], works));
    forall i | 0 <= i < |js| ensures Exclusive(js[i].table) {
      ServiceKeeps(cs, es, works, i);
      ServiceIsExclusive(cs[i].s, works);
    }
    forall i | 0 <= i < |ys| ensures JointEnabled(js[i], ys[i]) && js[i + 1] == JointStep(js[i], ys[i]) {
      ServiceStepIsJoint(cs[i], es[i], works);
    }
    ws, xs, at := LayerImplementsLocks(js, ys, |cs| - 1);
    assert forall i :: 0 <= i < |cs| ==> js[i].w == cs[i].w;
  }
}

/**
  The registry of named mutexes with its background sweeper.

  A locker takes the registry mutex, fetches or inserts the entry for its key, clones the
  reference, releases the registry and only then waits on the entry's own mutex.  The
  sweeper takes the registry mutex and evicts entries whose reference count is one.  A
  guard that is dropped first unlocks the mutex and later drops its reference.  The same
  code serves document locks, stats locks and the process-local locks of the lock client.
  */
module LockRegistry {
  import opened Prelude

  datatype Phase =
    | Entering(key: string)            // owns the registry mutex
    | Waiting(key: string, id: nat)    // has a reference, waits for the mutex
    | Holding(key: string, id: nat)    // owns the mutex
    | Dropping(key: string, id: nat)   // has unlocked, still has the reference

  datatype RegistryOwner = NoOne | Locker(t: nat) | Sweeper(left: set<string>)

  /** `counts` are the strong counts of the shared mutexes; `owners` says who has each locked. */
  datatype State = State(registry: map<string, nat>, access: RegistryOwner, next: nat,
                         counts: map<nat, nat>, owners: map<nat, nat>, tasks: map<nat, Phase>)

  datatype Event =
    | Enter(t: nat, key: string)
    | Fetch(t: nat)
    | Grant(t: nat)
    | Unlock(t: nat)
    | DropRef(t: nat)
    | Cancel(t: nat)
    | SweepStart
    | SweepOne(key: string)
    | SweepEnd

  predicate Enabled(s: State, e: Event)
  {
    match e
    case Enter(t, key) => s.access.NoOne? && t !in s.tasks
    case Fetch(t) => t in s.tasks && s.tasks[t].Entering? && s.access == Locker(t)
    case Grant(t) => t in s.tasks && s.tasks[t].Waiting? && s.tasks[t].id !in s.owners
    case Unlock(t) => t in s.tasks && s.tasks[t].Holding?
    case DropRef(t) => t in s.tasks && s.tasks[t].Dropping?
    case Cancel(t) => t in s.tasks && (s.tasks[t].Waiting? || s.tasks[t].Entering?)
    case SweepStart => s.access.NoOne?
    case SweepOne(key) => s.access.Sweeper? && key in s.access.left
    case SweepEnd => s.access.Sweeper? && s.access.left == {}
  }

  function Count(s: State, id: nat): nat
  {
    if id in s.counts then s.counts[id] else 0
  }

  /** One reference to `id` less. */
  function Less1(s: State, id: nat): map<nat, nat>
  {
    s.counts[id := if Count(s, id) > 0 then Count(s, id) - 1 else 0]
  }

  function Step(s: State, e: Event): State
    requires Enabled(s, e)
  {
    match e
    case Enter(t, key) => s.(access := Locker(t), tasks := s.tasks[t := Entering(key)])
    case Fetch(t) =>
      var key := s.tasks[t].key;
      if key in s.registry then
        var id := s.registry[key];
        s.(access := NoOne, counts := s.counts[id := Count(s, id) + 1], tasks := s.tasks[t := Waiting(key, id)])
      else
        s.(access := NoOne, registry := s.registry[key := s.next], next := s.next + 1,
           counts := s.counts[s.next := 2], tasks := s.tasks[t := Waiting(key, s.next)])
    case Grant(t) =>
      s.(owners := s.owners[s.tasks[t].id := t], tasks := s.tasks[t := Holding(s.tasks[t].key, s.tasks[t].id)])
    case Unlock(t) =>
      s.(owners := s.owners - {s.tasks[t].id}, tasks := s.tasks[t := Dropping(s.tasks[t].key, s.tasks[t].id)])
    case DropRef(t) => s.(counts := Less1(s, s.tasks[t].id), tasks := s.tasks - {t})
    case Cancel(t) =>
      if s.tasks[t].Waiting? then s.(counts := Less1(s, s.tasks[t].id), tasks := s.tasks - {t})
      else s.(access := NoOne, tasks := s.tasks - {t})
    case SweepStart => s.(access := Sweeper(s.registry.Keys))
    case SweepOne(key) =>
      var s' := s.(access := Sweeper(s.access.left - {key}));
      if key in s.registry && Count(s, s.registry[key]) <= 1
      then s'.(registry := s.registry - {key}, counts := Less1(s, s.registry[key]))
      else s'
    case SweepEnd => s.(access := NoOne)
  }

  predicate Init(s: State)
  {
    s == State(map[], NoOne, 0, map[], map[], map[])
  }

  predicate IsRun(ss: seq<State>, es: seq<Event>)
  {
    && |ss| == |es| + 1 && Init(ss[0])
    && forall i :: 0 <= i < |es| ==> Enabled(ss[i], es[i]) && ss[i + 1] == Step(ss[i], es[i])
  }

  // ------------------------------------------------------------------ invariant

  predicate Refers(p: Phase, id: nat)
  {
    !p.Entering? && p.id == id
  }

  function Refs(tasks: map<nat, Phase>, id: nat): set<nat>
  {
    set t | t in tasks && Refers(tasks[t], id)
  }

  predicate Listed(s: State, id: nat)
  {
    exists key :: key in s.registry && s.registry[key] == id
  }

  /** Every waiter, holder and dropper of a key refers to the one mutex registered for it. */
  predicate OneMutex(s: State)
  {
    forall t :: t in s.tasks && !s.tasks[t].Entering? ==>
      s.tasks[t].key in s.registry && s.registry[s.tasks[t].key] == s.tasks[t].id
  }

  predicate CountOk(s: State, id: nat)
  {
    Count(s, id) == |Refs(s.tasks, id)| + (if Listed(s, id) then 1 else 0)
  }

  ghost predicate CountsOk(s: State)
  {
    forall id: nat :: CountOk(s, id)
  }

  /** Registered mutexes are old ones, one per key. */
  predicate RegistryOk(s: State)
  {
    && (forall key :: key in s.registry ==> s.registry[key] < s.next)
    && (forall k, l :: k in s.registry && l in s.registry && s.registry[k] == s.registry[l] ==> k == l)
  }

  /** A mutex is owned by exactly the task that holds it. */
  predicate OwnersOk(s: State)
  {
    && (forall t :: t in s.tasks && s.tasks[t].Holding? ==> Lookup(s.owners, s.tasks[t].id) == Some(t))
    && (forall id :: id in s.owners ==> s.owners[id] in s.tasks && s.tasks[s.owners[id]].Holding?
                                        && s.tasks[s.owners[id]].id == id)
  }

  /** Exactly the task that is entering has the registry mutex. */
  predicate AccessOk(s: State)
  {
    && (forall t :: t in s.tasks && s.tasks[t].Entering? ==> s.access == Locker(t))
    && (s.access.Locker? ==> s.access.t in s.tasks && s.tasks[s.access.t].Entering?)
  }

  ghost predicate Inv(s: State)
  {
    RegistryOk(s) && OneMutex(s) && CountsOk(s) && OwnersOk(s) && AccessOk(s)
  }

  lemma RegistryKept(s: State, e: Event, s': State)
    requires RegistryOk(s) && Enabled(s, e) && s' == Step(s, e)
    ensures RegistryOk(s')
  {
  }

  lemma OwnersKept(s: State, e: Event, s': State)
    requires OwnersOk(s) && Enabled(s, e) && s' == Step(s, e)
    ensures OwnersOk(s')
  {
  }

  lemma AccessKept(s: State, e: Event, s': State)
    requires AccessOk(s) && Enabled(s, e) && s' == Step(s, e)
    ensures AccessOk(s')
  {
  }

  lemma MutexKept(s: State, e: Event, s': State)
    requires OneMutex(s) && Enabled(s, e) && s' == Step(s, e)
    requires e.SweepOne? && e.key in s.registry && e.key !in s'.registry ==>
               forall t :: t in s.tasks && !s.tasks[t].Entering? ==> s.tasks[t].key != e.key
    ensures OneMutex(s')
  {
  }

  // ------------------------------------------------------------------ counting references

  /** Adding or removing one reference changes one count by one. */
  lemma RefsWith(tasks: map<nat, Phase>, t: nat, p: Phase, id: nat)
    ensures Refs(tasks[t := p], id) == (if Refers(p, id) then Refs(tasks - {t}, id) + {t} else Refs(tasks - {t}, id))
    ensures t !in Refs(tasks - {t}, id)
    ensures t in tasks ==>
              Refs(tasks, id) == if Refers(tasks[t], id) then Refs(tasks - {t}, id) + {t} else Refs(tasks - {t}, id)
    ensures t !in tasks ==> Refs(tasks - {t}, id) == Refs(tasks, id)
  {
  }

  /** A sweep finds a count of one exactly when nobody refers to the mutex. */
  lemma CountOneIsIdle(s: State, key: string)
    requires OneMutex(s) && RegistryOk(s) && CountsOk(s) && key in s.registry
    ensures Count(s, s.registry[key]) <= 1 <==> forall t :: t in s.tasks && !s.tasks[t].Entering? ==> s.tasks[t].key != key
  {
    var id := s.registry[key];
    assert CountOk(s, id) && Listed(s, id);
    if t :| t in s.tasks && !s.tasks[t].Entering? && s.tasks[t].key == key {
      assert t in Refs(s.tasks, id);
    } else {
      assert Refs(s.tasks, id) == {};
    }
  }

  /** A task that only enters, and the sweeper at work on the registry, refer to no mutex. */
  lemma EnterCounts(s: State, e: Event, s': State, id: nat)
    requires CountOk(s, id) && Enabled(s, e) && s' == Step(s, e) && (e.Enter? || e.SweepStart? || e.SweepEnd?)
    ensures CountOk(s', id)
  {
    assert Refs(s'.tasks, id) == Refs(s.tasks, id);
    assert s'.registry == s.registry;
  }

  /** A reference to a mutex that is registered already. */
  lemma FetchOldCounts(s: State, t: nat, s': State, id: nat)
    requires CountOk(s, id) && Enabled(s, Fetch(t)) && s' == Step(s, Fetch(t)) && s.tasks[t].key in s.registry
    ensures CountOk(s', id)
  {
    RefsWith(s.tasks, t, s'.tasks[t], id);
    assert s'.registry == s.registry;
  }

  /** A fresh mutex has two references: the registry's and the locker's. */
  lemma FetchNewCounts(s: State, t: nat, s': State, id: nat)
    requires CountOk(s, id) && RegistryOk(s) && OneMutex(s)
    requires Enabled(s, Fetch(t)) && s' == Step(s, Fetch(t)) && s.tasks[t].key !in s.registry
    ensures CountOk(s', id)
  {
    RefsWith(s.tasks, t, s'.tasks[t], id);
    assert s'.registry[s.tasks[t].key] == s.next;
    if id == s.next {
      assert Refs(s.tasks, id) == {};
    } else if Listed(s, id) {
      var k :| k in s.registry && s.registry[k] == id;
      assert k in s'.registry && s'.registry[k] == id;
    }
  }

  /** Locking and unlocking leave every reference where it is. */
  lemma LockCounts(s: State, e: Event, s': State, id: nat)
    requires CountOk(s, id) && Enabled(s, e) && s' == Step(s, e) && (e.Grant? || e.Unlock?)
    ensures CountOk(s', id)
  {
    RefsWith(s.tasks, e.t, s'.tasks[e.t], id);
    assert s'.registry == s.registry;
  }

  lemma LeaveCounts(s: State, e: Event, s': State, id: nat)
    requires CountOk(s, id) && Enabled(s, e) && s' == Step(s, e) && (e.DropRef? || e.Cancel?)
    ensures CountOk(s', id)
  {
    RefsWith(s.tasks, e.t, s.tasks[e.t], id);
    assert s'.registry == s.registry;
  }

  /** Evicting an entry of count one strands nobody. */
  lemma SweepCounts(s: State, key: string, s': State, id: nat)
    requires CountOk(s, id) && RegistryOk(s) && Enabled(s, SweepOne(key)) && s' == Step(s, SweepOne(key))
    ensures CountOk(s', id)
  {
    if Listed(s, id) {
      var k :| k in s.registry && s.registry[k] == id;
      assert k != key ==> k in s'.registry && s'.registry[k] == id;
    }
  }

  lemma CountsKept(s: State, e: Event, s': State, id: nat)
    requires RegistryOk(s) && OneMutex(s) && CountOk(s, id) && Enabled(s, e) && s' == Step(s, e)
    ensures CountOk(s', id)
  {
    match e
    case Enter(_, _) => EnterCounts(s, e, s', id);
    case Fetch(t) => if s.tasks[t].key in s.registry { FetchOldCounts(s, t, s', id); } else { FetchNewCounts(s, t, s', id); }
    case Grant(_) => LockCounts(s, e, s', id);
    case Unlock(_) => LockCounts(s, e, s', id);
    case DropRef(_) => LeaveCounts(s, e, s', id);
    case Cancel(_) => LeaveCounts(s, e, s', id);
    case SweepStart => EnterCounts(s, e, s', id);
    case SweepOne(key) => SweepCounts(s, key, s', id);
    case SweepEnd => EnterCounts(s, e, s', id);
  }

  lemma StepKeeps(s: State, e: Event)
    requires Inv(s) && Enabled(s, e)
    ensures Inv(Step(s, e))
  {
    var s' := Step(s, e);
    RegistryKept(s, e, s');
    OwnersKept(s, e, s');
    AccessKept(s, e, s');
    if e.SweepOne? && e.key in s.registry {
      CountOneIsIdle(s, e.key);
    }
    MutexKept(s, e, s');
    forall id: nat ensures CountOk(s', id) {
      CountsKept(s, e, s', id);
    }
  }

  lemma {:induction false} RunKeeps(ss: seq<State>, es: seq<Event>, n: nat)
    requires IsRun(ss, es) && n < |ss|
    ensures Inv(ss[n])
  {
    if n > 0 {
      RunKeeps(ss, es, n - 1);
      StepKeeps(ss[n - 1], es[n - 1]);
      assert ss[n - 1 + 1] == Step(ss[n - 1], es[n - 1]);
    }
  }

  // ------------------------------------------------------------------ results

  /**
    The sweeper keeps exclusion: with any number of lockers, cancellations and sweeps, two
    tasks never hold the same key, and everyone interested in a key shares its mutex.
    */
  lemma Exclusion(ss: seq<State>, es: seq<Event>, n: nat, t: nat, u: nat)
    requires IsRun(ss, es) && n < |ss| && t in ss[n].tasks && u in ss[n].tasks
    requires !ss[n].tasks[t].Entering? && !ss[n].tasks[u].Entering? && ss[n].tasks[t].key == ss[n].tasks[u].key
    ensures ss[n].tasks[t].id == ss[n].tasks[u].id
    ensures Lookup(ss[n].registry, ss[n].tasks[t].key) == Some(ss[n].tasks[t].id)
    ensures ss[n].tasks[t].Holding? && ss[n].tasks[u].Holding? ==> t == u
  {
    RunKeeps(ss, es, n);
  }

  /** A sweep step evicts a registered key exactly when no task waits for, holds or is dropping it. */
  lemma SweepExact(ss: seq<State>, es: seq<Event>, n: nat)
    requires IsRun(ss, es) && n < |es| && es[n].SweepOne? && es[n].key in ss[n].registry
    ensures es[n].key !in ss[n + 1].registry <==>
            forall t :: t in ss[n].tasks && !ss[n].tasks[t].Entering? ==> ss[n].tasks[t].key != es[n].key
    ensures forall k :: k in ss[n].registry && k != es[n].key ==> k in ss[n + 1].registry
  {
    RunKeeps(ss, es, n);
    CountOneIsIdle(ss[n], es[n].key);
  }

  /** A task that finds no entry for its key gets a mutex of its own. */
  lemma EntersAlone(s: State, u: nat, key: string) returns (s1: State, s2: State, s3: State)
    requires s.access.NoOne? && u !in s.tasks && key !in s.registry && s.next !in s.owners
    ensures Enabled(s, Enter(u, key)) && s1 == Step(s, Enter(u, key))
    ensures Enabled(s1, Fetch(u)) && s2 == Step(s1, Fetch(u))
    ensures Enabled(s2, Grant(u)) && s3 == Step(s2, Grant(u))
    ensures s3.tasks == s.tasks[u := Holding(key, s.next)]
  {
    s1 := Step(s, Enter(u, key));
    s2 := Step(s1, Fetch(u));
    s3 := Step(s2, Grant(u));
  }

  /**
    The count check is needed for every key in use.  If the sweeper removed the entry of a key that
    some task waits for or holds, the next task would enter by a second mutex; if the first task is a
    holder, two tasks then hold the key.
    */
  lemma CountCheckIsNeeded(s: State, t: nat, u: nat) returns (s1: State, s2: State, s3: State)
    requires Inv(s) && s.access.NoOne? && t in s.tasks && !s.tasks[t].Entering? && u !in s.tasks
    ensures var key := s.tasks[t].key;
            var swept := s.(registry := s.registry - {key});
            && Enabled(swept, Enter(u, key)) && s1 == Step(swept, Enter(u, key))
            && Enabled(s1, Fetch(u)) && s2 == Step(s1, Fetch(u))
            && Enabled(s2, Grant(u)) && s3 == Step(s2, Grant(u))
            && t in s3.tasks && s3.tasks[t] == s.tasks[t]
            && u in s3.tasks && s3.tasks[u] == Holding(key, s.next) && s.tasks[t].id != s.next
  {
    var key := s.tasks[t].key;
    assert s.next !in s.owners;
    s1, s2, s3 := EntersAlone(s.(registry := s.registry - {key}), u, key);
  }
}

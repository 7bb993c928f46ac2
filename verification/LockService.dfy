/**
  The lock client: a process-local lock in front of a lock service that grants a name
  again to the owner that already has it.

  Requests travel over a network: once sent, a request may be served late, never, or more
  than once, and a client that timed out moves on to its next attempt and ignores older
  replies.  The owner id is one per process.  The service is modelled by its documented
  behaviour: a name is granted when it is free or already has that owner, a release takes
  effect only for the current owner, and names may expire.
  */
module LockService {
  import opened Prelude

  datatype Phase =
    | Queued                    // waits for the process-local lock
    | Requesting(attempt: nat)  // has the local lock, asks the service
    | Critical
    | Releasing                 // release requests are under way, local lock still held
    | Done

  datatype Task = Task(process: nat, name: string, phase: Phase)

  datatype Request =
    | AcquireReq(t: nat, attempt: nat)
    | ReleaseReq(t: nat)

  /** `sent` never forgets a request; `grants` are the positive replies by task and attempt. */
  datatype State = State(tasks: map<nat, Task>, local: map<(nat, string), nat>,
                         owners: map<string, nat>, sent: set<Request>, grants: set<(nat, nat)>)

  datatype Event =
    | Start(t: nat, process: nat, name: string)
    | LockLocal(t: nat)
    | Send(t: nat)
    | ServeAcquire(t: nat, attempt: nat)
    | Receive(t: nat)
    | Retry(t: nat)
    | GiveUp(t: nat)
    | BeginRelease(t: nat)
    | ServeRelease(t: nat)
    | EndRelease(t: nat)
    | Expire(name: string)

  predicate At(s: State, t: nat, p: Phase)
  {
    t in s.tasks && s.tasks[t].phase == p
  }

  function Place(s: State, t: nat): (nat, string)
    requires t in s.tasks
  {
    (s.tasks[t].process, s.tasks[t].name)
  }

  predicate Enabled(s: State, e: Event)
  {
    match e
    case Start(t, process, name) => t !in s.tasks
    case LockLocal(t) => At(s, t, Queued) && Place(s, t) !in s.local
    case Send(t) => t in s.tasks && s.tasks[t].phase.Requesting?
    case ServeAcquire(t, attempt) => t in s.tasks && AcquireReq(t, attempt) in s.sent
    case Receive(t) => t in s.tasks && s.tasks[t].phase.Requesting? && (t, s.tasks[t].phase.attempt) in s.grants
    case Retry(t) => t in s.tasks && s.tasks[t].phase.Requesting?
    case GiveUp(t) => t in s.tasks && s.tasks[t].phase.Requesting?
    case BeginRelease(t) => At(s, t, Critical)
    case ServeRelease(t) => t in s.tasks && ReleaseReq(t) in s.sent
    case EndRelease(t) => At(s, t, Releasing)
    case Expire(name) => name in s.owners
  }

  function Move(s: State, t: nat, p: Phase): State
    requires t in s.tasks
  {
    s.(tasks := s.tasks[t := s.tasks[t].(phase := p)])
  }

  function Step(s: State, e: Event): State
    requires Enabled(s, e)
  {
    match e
    case Start(t, process, name) => s.(tasks := s.tasks[t := Task(process, name, Queued)])
    case LockLocal(t) => Move(s, t, Requesting(0)).(local := s.local[Place(s, t) := t])
    case Send(t) => s.(sent := s.sent + {AcquireReq(t, s.tasks[t].phase.attempt)})
    case ServeAcquire(t, attempt) =>
      if s.tasks[t].name !in s.owners || s.owners[s.tasks[t].name] == s.tasks[t].process
      then s.(owners := s.owners[s.tasks[t].name := s.tasks[t].process], grants := s.grants + {(t, attempt)})
      else s
    case Receive(t) => Move(s, t, Critical)
    case Retry(t) => Move(s, t, Requesting(s.tasks[t].phase.attempt + 1))
    case GiveUp(t) => Move(s, t, Done).(local := s.local - {Place(s, t)})
    case BeginRelease(t) => Move(s, t, Releasing).(sent := s.sent + {ReleaseReq(t)})
    case ServeRelease(t) =>
      if Lookup(s.owners, s.tasks[t].name) == Some(s.tasks[t].process)
      then s.(owners := s.owners - {s.tasks[t].name}) else s
    case EndRelease(t) => Move(s, t, Done).(local := s.local - {Place(s, t)})
    case Expire(name) => s.(owners := s.owners - {name})
  }

  const Empty := State(map[], map[], map[], {}, {})

  predicate IsRun(ss: seq<State>, es: seq<Event>)
  {
    && |ss| == |es| + 1 && ss[0] == Empty
    && forall i :: 0 <= i < |es| ==> Enabled(ss[i], es[i]) && ss[i + 1] == Step(ss[i], es[i])
  }

  // ------------------------------------------------------------------ what exclusion needs of the service

  /** The task is in its critical section, or the grant that will put it there is on its way. */
  predicate Relies(s: State, t: nat)
  {
    && t in s.tasks
    && (s.tasks[t].phase.Critical?
        || (s.tasks[t].phase.Requesting? && (t, s.tasks[t].phase.attempt) in s.grants))
  }

  /** The service takes a name away from its owner, by a release or because it expired. */
  predicate Frees(s: State, e: Event, name: string)
    requires Enabled(s, e)
  {
    && name in s.owners
    && match e
       case ServeRelease(t) => s.tasks[t].name == name && s.owners[name] == s.tasks[t].process
       case Expire(n) => n == name
       case _ => false
  }

  /** The service frees no name that some task relies on. */
  ghost predicate Respectful(s: State, e: Event)
    requires Enabled(s, e)
  {
    forall t :: Relies(s, t) ==> !Frees(s, e, s.tasks[t].name)
  }

  ghost predicate RespectfulRun(ss: seq<State>, es: seq<Event>)
  {
    IsRun(ss, es) && forall i :: 0 <= i < |es| ==> Respectful(ss[i], es[i])
  }

  /** At most one task is in the critical section of a name, whatever its process. */
  ghost predicate Excludes(s: State)
  {
    forall t, u :: At(s, t, Critical) && At(s, u, Critical) && s.tasks[t].name == s.tasks[u].name ==> t == u
  }

  // ------------------------------------------------------------------ invariant

  predicate Inside(p: Phase)
  {
    p.Requesting? || p.Critical? || p.Releasing?
  }

  /** Nothing is sent or granted for an attempt the task has not made yet. */
  ghost predicate KnownAttempts(s: State, t: nat)
    requires t in s.tasks
  {
    && (s.tasks[t].phase.Queued? ==> forall k: nat :: AcquireReq(t, k) !in s.sent && (t, k) !in s.grants)
    && (s.tasks[t].phase.Requesting? ==>
          forall k: nat :: k > s.tasks[t].phase.attempt ==> AcquireReq(t, k) !in s.sent && (t, k) !in s.grants)
  }

  /** Whoever is inside has the local lock of its process. */
  ghost predicate LocalsHeld(s: State)
  {
    forall t :: t in s.tasks && Inside(s.tasks[t].phase) ==> Lookup(s.local, Place(s, t)) == Some(t)
  }

  /** Whoever relies on a name has its process as the owner. */
  ghost predicate NamesOwned(s: State)
  {
    forall t :: Relies(s, t) ==> Lookup(s.owners, s.tasks[t].name) == Some(s.tasks[t].process)
  }

  ghost predicate AttemptsKnown(s: State)
  {
    && (forall t :: t in s.tasks ==> KnownAttempts(s, t))
    && (forall t: nat, k: nat :: AcquireReq(t, k) in s.sent || (t, k) in s.grants ==> t in s.tasks)
  }

  ghost predicate Inv(s: State)
  {
    LocalsHeld(s) && NamesOwned(s) && AttemptsKnown(s)
  }

  /** Two tasks of one process that both hold a name's local lock are the same task. */
  lemma SamePlace(s: State, t: nat, u: nat)
    requires LocalsHeld(s) && t in s.tasks && u in s.tasks && Inside(s.tasks[t].phase) && Inside(s.tasks[u].phase)
    requires Place(s, t) == Place(s, u)
    ensures t == u
  {
  }

  lemma ApartPlaces(s: State, t: nat, u: nat)
    requires LocalsHeld(s) && t in s.tasks && u in s.tasks && Inside(s.tasks[t].phase) && Inside(s.tasks[u].phase) && t != u
    ensures Place(s, t) != Place(s, u)
  {
  }

  lemma LocalsKept(s: State, e: Event, s': State)
    requires LocalsHeld(s) && Enabled(s, e) && s' == Step(s, e)
    ensures LocalsHeld(s')
  {
    forall t | t in s'.tasks && Inside(s'.tasks[t].phase) ensures Lookup(s'.local, Place(s', t)) == Some(t) {
      LocalKept(s, e, s', t);
    }
  }

  lemma LocalKept(s: State, e: Event, s': State, t: nat)
    requires LocalsHeld(s) && Enabled(s, e) && s' == Step(s, e) && t in s'.tasks && Inside(s'.tasks[t].phase)
    ensures Lookup(s'.local, Place(s', t)) == Some(t)
  {
    if e.GiveUp? || e.EndRelease? {
      ApartPlaces(s, t, e.t);
    } else if e.LockLocal? && t != e.t {
      assert Lookup(s.local, Place(s, t)) == Some(t);
    }
  }

  lemma AttemptsKept(s: State, e: Event, s': State)
    requires AttemptsKnown(s) && Enabled(s, e) && s' == Step(s, e)
    ensures AttemptsKnown(s')
  {
    forall t | t in s'.tasks ensures KnownAttempts(s', t) {
      AttemptKept(s, e, s', t);
    }
  }

  lemma AttemptKept(s: State, e: Event, s': State, t: nat)
    requires AttemptsKnown(s) && Enabled(s, e) && s' == Step(s, e) && t in s'.tasks
    ensures KnownAttempts(s', t)
  {
    if t in s.tasks {
      assert KnownAttempts(s, t);
    }
  }

  lemma NamesKept(s: State, e: Event, s': State)
    requires Inv(s) && Enabled(s, e) && s' == Step(s, e) && Respectful(s, e)
    ensures NamesOwned(s')
  {
    forall t | Relies(s', t) ensures Lookup(s'.owners, s'.tasks[t].name) == Some(s'.tasks[t].process) {
      NameKept(s, e, s', t);
    }
  }

  lemma NameKept(s: State, e: Event, s': State, t: nat)
    requires Inv(s) && Enabled(s, e) && s' == Step(s, e) && Respectful(s, e) && Relies(s', t)
    ensures Lookup(s'.owners, s'.tasks[t].name) == Some(s'.tasks[t].process)
  {
    if t in s.tasks {
      assert KnownAttempts(s, t);
    }
    if Relies(s, t) {
      assert !Frees(s, e, s.tasks[t].name);
    }
  }

  lemma StepKeeps(s: State, e: Event)
    requires Inv(s) && Enabled(s, e) && Respectful(s, e)
    ensures Inv(Step(s, e))
  {
    LocalsKept(s, e, Step(s, e));
    NamesKept(s, e, Step(s, e));
    AttemptsKept(s, e, Step(s, e));
  }

  lemma {:induction false} RunKeeps(ss: seq<State>, es: seq<Event>, n: nat)
    requires RespectfulRun(ss, es) && n < |ss|
    ensures Inv(ss[n])
  {
    if n > 0 {
      RunKeeps(ss, es, n - 1);
      assert ss[n - 1 + 1] == Step(ss[n - 1], es[n - 1]);
      StepKeeps(ss[n - 1], es[n - 1]);
    }
  }

  // ------------------------------------------------------------------ exclusion

  lemma InvExcludes(s: State)
    requires Inv(s)
    ensures Excludes(s)
  {
    forall t, u | At(s, t, Critical) && At(s, u, Critical) && s.tasks[t].name == s.tasks[u].name ensures t == u {
      assert Relies(s, t) && Relies(s, u);
      SamePlace(s, t, u);
    }
  }

  /**
    Two-level mutual exclusion.  As long as the service frees no name in use, at most one task
    across all processes is in the critical section of a name, although the service grants the
    name to every task of the owning process.
    */
  lemma Exclusion(ss: seq<State>, es: seq<Event>, n: nat)
    requires RespectfulRun(ss, es) && n < |ss|
    ensures Excludes(ss[n])
  {
    RunKeeps(ss, es, n);
    InvExcludes(ss[n]);
  }

  /** A release served while the call that sent it still runs, and the expiry of a name nobody relies on, are harmless. */
  ghost predicate Timely(s: State, e: Event)
  {
    match e
    case ServeRelease(t) => At(s, t, Releasing)
    case Expire(name) => forall t :: Relies(s, t) ==> s.tasks[t].name != name
    case _ => true
  }

  lemma TimelyIsRespectful(s: State, e: Event)
    requires Inv(s) && Enabled(s, e) && Timely(s, e)
    ensures Respectful(s, e)
  {
    forall t | Relies(s, t) ensures !Frees(s, e, s.tasks[t].name) {
      if e.ServeRelease? && Frees(s, e, s.tasks[t].name) {
        SamePlace(s, t, e.t);
      }
    }
  }

  /** So a run in which releases are served in time and held names do not expire is respectful. */
  lemma {:induction false} TimelyRun(ss: seq<State>, es: seq<Event>, n: nat)
    requires IsRun(ss, es) && n <= |es| && forall i :: 0 <= i < n ==> Timely(ss[i], es[i])
    ensures RespectfulRun(ss[..n + 1], es[..n])
  {
    if n > 0 {
      TimelyRun(ss, es, n - 1);
      RunKeeps(ss[..n], es[..n - 1], n - 1);
      TimelyIsRespectful(ss[n - 1], es[n - 1]);
      forall i | 0 <= i < n ensures Respectful(ss[..n + 1][i], es[..n][i]) {
        assert i < n - 1 ==> Respectful(ss[..n][i], es[..n - 1][i]);
      }
    }
  }

  // ------------------------------------------------------------------ executions

  ghost predicate Executes(s: State, es: seq<Event>, z: State)
    decreases |es|
  {
    if es == [] then s == z else Enabled(s, es[0]) && Executes(Step(s, es[0]), es[1..], z)
  }

  lemma {:induction false} Compose(s: State, es: seq<Event>, m: State, fs: seq<Event>, z: State)
    requires Executes(s, es, m) && Executes(m, fs, z)
    ensures Executes(s, es + fs, z)
    decreases |es|
  {
    if es == [] {
      assert es + fs == fs;
    } else {
      Compose(Step(s, es[0]), es[1..], m, fs, z);
      assert (es + fs)[1..] == es[1..] + fs;
    }
  }

  lemma ExecutesOne(s: State, e: Event)
    requires Enabled(s, e)
    ensures Executes(s, [e], Step(s, e))
  {
    assert Executes(Step(s, e), [e][1..], Step(s, e));
  }

  /** Steps in which the service takes nothing away. */
  predicate Quiet(es: seq<Event>)
  {
    forall i :: 0 <= i < |es| ==> !es[i].ServeRelease? && !es[i].Expire?
  }

  /** A new task takes the process-local lock. */
  lemma TakesLocal(s: State, t: nat, process: nat, name: string) returns (z: State)
    requires t !in s.tasks && (process, name) !in s.local
    ensures Executes(s, [Start(t, process, name), LockLocal(t)], z)
    ensures z == s.(tasks := s.tasks[t := Task(process, name, Requesting(0))], local := s.local[(process, name) := t])
  {
    var s1 := Step(s, Start(t, process, name));
    z := Step(s1, LockLocal(t));
    ExecutesOne(s, Start(t, process, name));
    ExecutesOne(s1, LockLocal(t));
    Compose(s, [Start(t, process, name)], s1, [LockLocal(t)], z);
    assert [Start(t, process, name)] + [LockLocal(t)] == [Start(t, process, name), LockLocal(t)];
  }

  /** Its request is served. */
  lemma IsServed(s: State, t: nat, process: nat, name: string) returns (z: State)
    requires t in s.tasks && s.tasks[t] == Task(process, name, Requesting(0)) && (name in s.owners ==> s.owners[name] == process)
    ensures Executes(s, [Send(t), ServeAcquire(t, 0)], z)
    ensures z == s.(owners := s.owners[name := process], sent := s.sent + {AcquireReq(t, 0)}, grants := s.grants + {(t, 0)})
  {
    var s1 := Step(s, Send(t));
    z := Step(s1, ServeAcquire(t, 0));
    ExecutesOne(s, Send(t));
    ExecutesOne(s1, ServeAcquire(t, 0));
    Compose(s, [Send(t)], s1, [ServeAcquire(t, 0)], z);
    assert [Send(t)] + [ServeAcquire(t, 0)] == [Send(t), ServeAcquire(t, 0)];
  }

  /** A task that finds the name free, or its process the owner, enters in five steps. */
  lemma Enters(s: State, t: nat, process: nat, name: string) returns (es: seq<Event>, z: State)
    requires t !in s.tasks && (process, name) !in s.local && (name in s.owners ==> s.owners[name] == process)
    ensures Executes(s, es, z) && Quiet(es)
    ensures z.tasks == s.tasks[t := Task(process, name, Critical)] && z.local == s.local[(process, name) := t]
    ensures z.owners == s.owners[name := process] && s.sent <= z.sent
  {
    var s1 := TakesLocal(s, t, process, name);
    var s2 := IsServed(s1, t, process, name);
    z := Step(s2, Receive(t));
    ExecutesOne(s2, Receive(t));
    Compose(s, [Start(t, process, name), LockLocal(t)], s1, [Send(t), ServeAcquire(t, 0)], s2);
    Compose(s, [Start(t, process, name), LockLocal(t)] + [Send(t), ServeAcquire(t, 0)], s2, [Receive(t)], z);
    es := [Start(t, process, name), LockLocal(t)] + [Send(t), ServeAcquire(t, 0)] + [Receive(t)];
  }

  // ------------------------------------------------------------------ the condition is exact

  lemma NewProcess(local: map<(nat, string), nat>) returns (process: nat)
    ensures forall name: string :: (process, name) !in local
  {
    var used := set p | p in local :: p.0;
    process := Unused(used);
    forall p: (nat, string) | p in local ensures p.0 < process {
      assert p.0 in used;
    }
    forall name: string ensures (process, name) !in local {
      assert (process, name).0 == process;
    }
  }

  /** A task that relies on a name is or gets into its critical section. */
  lemma RelierEnters(s: State, t: nat) returns (es: seq<Event>, z: State)
    requires Relies(s, t)
    ensures Executes(s, es, z) && Quiet(es) && z.owners == s.owners
    ensures z.tasks == s.tasks[t := s.tasks[t].(phase := Critical)]
  {
    if s.tasks[t].phase.Critical? {
      es, z := [], s;
    } else {
      es, z := [Receive(t)], Step(s, Receive(t));
      ExecutesOne(s, Receive(t));
    }
  }

  /** If a name is free while a task relies on it, a task of another process can join it in the critical section. */
  lemma FreeNameIsShared(s: State, t: nat) returns (es: seq<Event>, z: State)
    requires Relies(s, t) && s.tasks[t].name !in s.owners
    ensures Executes(s, es, z) && Quiet(es) && !Excludes(z)
  {
    var name := s.tasks[t].name;
    var first, s1 := RelierEnters(s, t);
    var u := Unused(s1.tasks.Keys);
    var process := NewProcess(s1.local);
    var second, s2 := Enters(s1, u, process, name);
    Compose(s, first, s1, second, s2);
    es, z := first + second, s2;
    assert At(z, t, Critical) && At(z, u, Critical) && z.tasks[t].name == z.tasks[u].name && t != u;
  }

  /** From every state, a step that frees a name some task relies on lets two tasks into one critical section. */
  lemma FreeingBreaks(s: State, e: Event, t: nat) returns (es: seq<Event>, z: State)
    requires Enabled(s, e) && Relies(s, t) && Frees(s, e, s.tasks[t].name)
    ensures Executes(Step(s, e), es, z) && Quiet(es) && !Excludes(z)
  {
    es, z := FreeNameIsShared(Step(s, e), t);
  }

  lemma QuietIsRespectful(s: State, e: Event)
    requires Enabled(s, e) && !e.ServeRelease? && !e.Expire?
    ensures Respectful(s, e)
  {
  }

  lemma {:induction false} QuietKeeps(s: State, es: seq<Event>, z: State)
    requires Inv(s) && Executes(s, es, z) && Quiet(es)
    ensures Inv(z)
    decreases |es|
  {
    if es != [] {
      QuietIsRespectful(s, es[0]);
      StepKeeps(s, es[0]);
      assert forall i :: 0 <= i < |es[1..]| ==> es[1..][i] == es[i + 1];
      QuietKeeps(Step(s, es[0]), es[1..], z);
    }
  }

  /** However the run goes on from any of its states without the service taking a name away, exclusion holds. */
  ghost predicate SafeThroughout(ss: seq<State>)
  {
    forall n, es, z :: 0 <= n < |ss| && Quiet(es) && Executes(ss[n], es, z) ==> Excludes(z)
  }

  /** A run is safe throughout if and only if no step of it frees a name that some task relies on. */
  lemma ExclusionExactly(ss: seq<State>, es: seq<Event>)
    requires IsRun(ss, es)
    ensures SafeThroughout(ss) <==> RespectfulRun(ss, es)
  {
    if RespectfulRun(ss, es) {
      forall n, fs, z | 0 <= n < |ss| && Quiet(fs) && Executes(ss[n], fs, z) ensures Excludes(z) {
        RunKeeps(ss, es, n);
        QuietKeeps(ss[n], fs, z);
        InvExcludes(z);
      }
    } else {
      var i :| 0 <= i < |es| && !Respectful(ss[i], es[i]);
      var t :| Relies(ss[i], t) && Frees(ss[i], es[i], ss[i].tasks[t].name);
      var fs, z := FreeingBreaks(ss[i], es[i], t);
      assert ss[i + 1] == Step(ss[i], es[i]);
      assert Executes(ss[i + 1], fs, z) && Quiet(fs) && !Excludes(z);
    }
  }

  // ------------------------------------------------------------------ how it happens

  /** A holder whose release requests all time out leaves; its request stays in the network. */
  lemma LeavesUnserved(s: State, t: nat) returns (es: seq<Event>, z: State)
    requires At(s, t, Critical)
    ensures Executes(s, es, z)
    ensures z.tasks == s.tasks[t := s.tasks[t].(phase := Done)] && z.local == s.local - {Place(s, t)}
    ensures z.owners == s.owners && ReleaseReq(t) in z.sent
  {
    var m := Step(s, BeginRelease(t));
    z := Step(m, EndRelease(t));
    ExecutesOne(s, BeginRelease(t));
    ExecutesOne(m, EndRelease(t));
    Compose(s, [BeginRelease(t)], m, [EndRelease(t)], z);
    es := [BeginRelease(t)] + [EndRelease(t)];
  }

  /**
    From every state with a holder: it leaves with its release unserved, a second task of its
    process enters, the late release then frees the name under it, and a task of another process
    joins it.
    */
  lemma LateReleaseBreaksExclusion(s: State, t: nat) returns (es: seq<Event>, z: State)
    requires Inv(s) && At(s, t, Critical)
    ensures Executes(s, es, z) && ServeRelease(t) in es && !Excludes(z)
  {
    assert Relies(s, t);
    var p, name := s.tasks[t].process, s.tasks[t].name;
    var leave, s1 := LeavesUnserved(s, t);
    var u := Unused(s1.tasks.Keys);
    var enter, s2 := Enters(s1, u, p, name);
    var late := [ServeRelease(t)];
    var s3 := Step(s2, late[0]);
    ExecutesOne(s2, late[0]);
    assert Relies(s2, u) && Frees(s2, late[0], name);
    var join;
    join, z := FreeingBreaks(s2, late[0], u);
    Compose(s, leave, s1, enter, s2);
    Compose(s, leave + enter, s2, late, s3);
    Compose(s, leave + enter + late, s3, join, z);
    es := leave + enter + late + join;
    assert late[0] in es;
  }

  /** From every state with a task that relies on a name: the name expires and a second task joins it. */
  lemma ExpiryInUseBreaksExclusion(s: State, t: nat) returns (es: seq<Event>, z: State)
    requires Inv(s) && Relies(s, t)
    ensures Executes(s, es, z) && Expire(s.tasks[t].name) in es && !Excludes(z)
  {
    var e := Expire(s.tasks[t].name);
    ExecutesOne(s, e);
    var join;
    join, z := FreeingBreaks(s, e, t);
    Compose(s, [e], Step(s, e), join, z);
    es := [e] + join;
    assert es[0] == e;
  }
}

/**
 * The list of finished buckets: the report thread appends to it while a flush task writes a copy of
 * it to the database and then takes out what it wrote.
 */
module MetricsFlush {
  import opened Prelude
  import opened MetricsBuckets
  import opened MetricsReport
  import opened MetricsFive

  /**
   * The shared list, the copy a running flush task took of it, the database by bucket id, what the
   * report thread dropped for age, everything it ever appended, and the latest clock it appended at.
   */
  datatype State = State(pending: seq<Bucket>, batch: Option<seq<Bucket>>, stored: map<BucketId, Bucket>,
                         aged: set<Bucket>, appended: seq<Bucket>, clock: real)

  /** A request that fails may have stored any part of its batch. */
  datatype FlushEvent =
    | Append(completed: seq<Bucket>, now: real)
    | Start
    | Succeed
    | Fail(applied: set<BucketId>)

  const NothingYet := State([], None, map[], {}, [], 0.0)

  /** A flush starts when none runs and there is something to flush. */
  predicate Enabled(s: State, e: FlushEvent)
  {
    match e
    case Append(_, _) => true
    case Start => s.batch.None? && s.pending != []
    case Succeed => s.batch.Some?
    case Fail(_) => s.batch.Some?
  }

  function Ids(bs: seq<Bucket>): set<BucketId>
  {
    set b | b in bs :: IdOf(b)
  }

  function NotIn(ids: set<BucketId>): Bucket -> bool
  {
    (b: Bucket) => IdOf(b) !in ids
  }

  function In(ids: set<BucketId>): Bucket -> bool
  {
    (b: Bucket) => IdOf(b) in ids
  }

  /** The database keeps one point per bucket id; writing it again replaces it. */
  function Put(stored: map<BucketId, Bucket>, bs: seq<Bucket>): map<BucketId, Bucket>
  {
    if bs == [] then stored else Put(stored, bs[..|bs| - 1])[IdOf(bs[|bs| - 1]) := bs[|bs| - 1]]
  }

  function Step(s: State, e: FlushEvent): State
    requires Enabled(s, e)
  {
    match e
    case Append(completed, now) =>
      var kept := Retain(s.pending, NotOlder(now));
      s.(pending := kept + completed, aged := s.aged + (set b | b in s.pending && b !in kept),
         appended := s.appended + completed, clock := if s.clock < now then now else s.clock)
    case Start => s.(batch := Some(s.pending))
    case Succeed =>
      s.(pending := Retain(s.pending, NotIn(Ids(s.batch.value))), batch := None, stored := Put(s.stored, s.batch.value))
    case Fail(applied) => s.(batch := None, stored := Put(s.stored, Retain(s.batch.value, In(applied))))
  }

  // ------------------------------------------------------------------ accounts

  predicate Holds(stored: map<BucketId, Bucket>, b: Bucket)
  {
    IdOf(b) in stored && stored[IdOf(b)] == b
  }

  /** Every stored bucket is one that was appended, under its own id. */
  ghost predicate OnlyAppended(stored: map<BucketId, Bucket>, appended: seq<Bucket>)
  {
    forall id :: id in stored ==> stored[id] in appended && IdOf(stored[id]) == id
  }

  /** Each finished bucket is pending, stored as it was finished, or dropped because it was a day old; nothing else is stored. */
  ghost predicate Accounted(s: State)
  {
    && OnePerSlot(s.appended) && Distinct(s.pending) && OnlyAppended(s.stored, s.appended)
    && (forall b :: b in s.appended ==> b in s.pending || Holds(s.stored, b) || b in s.aged)
    && (forall b :: b in s.pending ==> b in s.appended)
    && (forall b :: b in s.aged ==> b in s.appended && b.start as real < s.clock - PENDING_MAX_AGE)
    && (s.batch.Some? ==> forall b :: b in s.batch.value ==> b in s.appended)
  }

  lemma SameIdSame(bs: seq<Bucket>, a: Bucket, b: Bucket)
    requires OnePerSlot(bs) && a in bs && b in bs && IdOf(a) == IdOf(b)
    ensures a == b
  {
  }

  lemma {:induction false} RetainDistinct(bs: seq<Bucket>, keep: Bucket -> bool)
    requires Distinct(bs)
    ensures Distinct(Retain(bs, keep))
  {
    if bs != [] {
      var n := |bs| - 1;
      RetainDistinct(bs[..n], keep);
      RetainMembers(bs[..n], keep);
      assert bs[n] !in Retain(bs[..n], keep);
    }
  }

  lemma DistinctConcat(a: seq<Bucket>, b: seq<Bucket>)
    requires Distinct(a) && Distinct(b) && forall x :: x in a ==> x !in b
    ensures Distinct(a + b)
  {
    var all := a + b;
    forall i, j | 0 <= i < j < |all| ensures all[i] != all[j] {
      if i < |a| <= j {
        assert all[i] == a[i] && a[i] in a;
        assert all[j] == b[j - |a|] && b[j - |a|] in b;
      }
    }
  }

  lemma AppendedApart(appended: seq<Bucket>, completed: seq<Bucket>)
    requires OnePerSlot(appended + completed)
    ensures OnePerSlot(appended) && Distinct(completed) && forall b :: b in completed ==> b !in appended
  {
    var all := appended + completed;
    assert forall i :: 0 <= i < |appended| ==> all[i] == appended[i];
    assert forall i :: 0 <= i < |completed| ==> all[|appended| + i] == completed[i];
  }

  /** Writing appended buckets stores each of them and changes no bucket that was there. */
  lemma {:induction false} PutKeeps(stored: map<BucketId, Bucket>, bs: seq<Bucket>, appended: seq<Bucket>)
    requires OnePerSlot(appended) && OnlyAppended(stored, appended) && forall b :: b in bs ==> b in appended
    ensures OnlyAppended(Put(stored, bs), appended)
    ensures forall b :: b in bs ==> Holds(Put(stored, bs), b)
    ensures forall id :: id in stored ==> id in Put(stored, bs) && Put(stored, bs)[id] == stored[id]
  {
    if bs != [] {
      var n := |bs| - 1;
      var front, b := Put(stored, bs[..n]), bs[n];
      PutKeeps(stored, bs[..n], appended);
      assert bs == bs[..n] + [b];
      if IdOf(b) in front {
        SameIdSame(appended, front[IdOf(b)], b);
      }
    }
  }

  lemma AppendKeeps(s: State, e: FlushEvent)
    requires Accounted(s) && e.Append? && OnePerSlot(s.appended + e.completed)
    ensures Accounted(Step(s, e))
  {
    var kept := Retain(s.pending, NotOlder(e.now));
    RetainMembers(s.pending, NotOlder(e.now));
    AppendedApart(s.appended, e.completed);
    RetainDistinct(s.pending, NotOlder(e.now));
    DistinctConcat(kept, e.completed);
    forall b | b in s.appended + e.completed
      ensures b in Step(s, e).pending || Holds(s.stored, b) || b in Step(s, e).aged
    {
      assert b in s.appended || b in e.completed;
    }
  }

  lemma SucceedKeeps(s: State)
    requires Accounted(s) && Enabled(s, Succeed)
    ensures Accounted(Step(s, Succeed))
  {
    SucceedRemoves(s);
    RetainDistinct(s.pending, NotIn(Ids(s.batch.value)));
    PutKeeps(s.stored, s.batch.value, s.appended);
  }

  lemma FailKeeps(s: State, e: FlushEvent)
    requires Accounted(s) && Enabled(s, e) && e.Fail?
    ensures Accounted(Step(s, e)) && Step(s, e).pending == s.pending
  {
    RetainMembers(s.batch.value, In(e.applied));
    PutKeeps(s.stored, Retain(s.batch.value, In(e.applied)), s.appended);
  }

  lemma StepKeeps(s: State, e: FlushEvent)
    requires Accounted(s) && Enabled(s, e) && OnePerSlot(Step(s, e).appended)
    ensures Accounted(Step(s, e))
  {
    match e
    case Append(_, _) => AppendKeeps(s, e);
    case Start =>
    case Succeed => SucceedKeeps(s);
    case Fail(_) => FailKeeps(s, e);
  }

  /** What is stored under an id never changes again. */
  lemma StoredStays(s: State, e: FlushEvent, id: BucketId)
    requires Accounted(s) && Enabled(s, e) && id in s.stored
    ensures id in Step(s, e).stored && Step(s, e).stored[id] == s.stored[id]
  {
    if e.Succeed? {
      PutKeeps(s.stored, s.batch.value, s.appended);
    } else if e.Fail? {
      RetainMembers(s.batch.value, In(e.applied));
      PutKeeps(s.stored, Retain(s.batch.value, In(e.applied)), s.appended);
    }
  }

  /** A successful flush takes out exactly the buckets it stored: what was appended meanwhile stays. */
  lemma SucceedRemoves(s: State)
    requires Accounted(s) && Enabled(s, Succeed)
    ensures forall b :: b in Step(s, Succeed).pending <==> b in s.pending && b !in s.batch.value
  {
    RetainMembers(s.pending, NotIn(Ids(s.batch.value)));
    forall b | b in s.pending ensures NotIn(Ids(s.batch.value))(b) <==> b !in s.batch.value {
      if a :| a in s.batch.value && IdOf(a) == IdOf(b) {
        SameIdSame(s.appended, a, b);
      }
    }
  }

  // ------------------------------------------------------------------ runs

  ghost predicate IsRun(ss: seq<State>, es: seq<FlushEvent>)
  {
    && |ss| == |es| + 1 && ss[0] == NothingYet
    && forall i :: 0 <= i < |es| ==> Enabled(ss[i], es[i]) && ss[i + 1] == Step(ss[i], es[i])
  }

  /** Over any interleaving of appends with ids of their own and flushes, nothing finished is forgotten. */
  lemma {:induction false} RunKeeps(ss: seq<State>, es: seq<FlushEvent>)
    requires IsRun(ss, es) && OnePerSlot(ss[|es|].appended)
    ensures Accounted(ss[|es|])
    decreases |es|
  {
    if es != [] {
      var n := |es| - 1;
      assert ss[n + 1] == Step(ss[n], es[n]);
      if es[n].Append? {
        AppendedApart(ss[n].appended, es[n].completed);
      }
      RunKeeps(ss[..|ss| - 1], es[..n]);
      StepKeeps(ss[n], es[n]);
    }
  }

  // ------------------------------------------------------------------ the ids of the report loop

  /** Finished minutes lie behind the minute watermark, finished five minutes behind theirs, all with ids of their own. */
  ghost predicate Finished(appended: seq<Bucket>, mark1: int, mark5: int)
  {
    && OnePerSlot(appended)
    && forall b :: b in appended ==> (b.seconds == MINUTE && b.start < mark1) || (b.seconds == FIVE_MINUTES && b.start < mark5)
  }

  /** What a turn finishes has ids that no earlier turn used. */
  lemma FinishedGrows(appended: seq<Bucket>, minutes: seq<Bucket>, fives: seq<Bucket>, lo1: int, hi1: int, lo5: int, hi5: int)
    requires Finished(appended, lo1, lo5) && lo1 <= hi1 && lo5 <= hi5
    requires OnePerSlot(minutes) && SlotsIn(minutes, MINUTE, lo1, hi1)
    requires OnePerSlot(fives) && SlotsIn(fives, FIVE_MINUTES, lo5, hi5)
    ensures Finished(appended + (minutes + fives), hi1, hi5)
  {
    ApartConcat(minutes, fives);
    forall a, b | a in appended && b in minutes + fives ensures IdOf(a) != IdOf(b) {
      assert b in minutes || b in fives;
    }
    ApartConcat(appended, minutes + fives);
    forall b | b in appended + (minutes + fives)
      ensures (b.seconds == MINUTE && b.start < hi1) || (b.seconds == FIVE_MINUTES && b.start < hi5)
    {
      assert b in appended || b in minutes || b in fives;
    }
  }

  lemma ApartConcat(a: seq<Bucket>, b: seq<Bucket>)
    requires OnePerSlot(a) && OnePerSlot(b) && forall x, y :: x in a && y in b ==> IdOf(x) != IdOf(y)
    ensures OnePerSlot(a + b)
  {
    var all := a + b;
    forall i, j | 0 <= i < j < |all| ensures IdOf(all[i]) != IdOf(all[j]) {
      if i < |a| <= j {
        assert all[i] == a[i] && a[i] in a;
        assert all[j] == b[j - |a|] && b[j - |a|] in b;
      }
    }
  }

  // ------------------------------------------------------------------ flushing between two appends

  /** The flush steps that happen between two turns; a step that is not possible does not happen. */
  function Flushed(s: State, es: seq<FlushEvent>): State
  {
    if es == [] then s
    else
      var before := Flushed(s, es[..|es| - 1]);
      var e := es[|es| - 1];
      if !e.Append? && Enabled(before, e) then Step(before, e) else before
  }

  lemma {:induction false} FlushedKeeps(s: State, es: seq<FlushEvent>)
    requires Accounted(s)
    ensures Accounted(Flushed(s, es)) && Flushed(s, es).appended == s.appended
  {
    if es != [] {
      var before := Flushed(s, es[..|es| - 1]);
      var e := es[|es| - 1];
      FlushedKeeps(s, es[..|es| - 1]);
      if !e.Append? && Enabled(before, e) {
        StepKeeps(before, e);
      }
    }
  }
}

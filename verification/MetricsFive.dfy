/** The five-minute roll-up, turn by turn and over whole runs. */
module MetricsFive {
  import opened Prelude
  import opened MetricsBuckets
  import opened MetricsReport

  const PENDING_MAX_AGE: real := 86400.0

  function Retain(bs: seq<Bucket>, keep: Bucket -> bool): seq<Bucket>
  {
    if bs == [] then []
    else
      var rest, last := Retain(bs[..|bs| - 1], keep), bs[|bs| - 1];
      if keep(last) then rest + [last] else rest
  }

  lemma {:induction false} RetainMembers(bs: seq<Bucket>, keep: Bucket -> bool)
    ensures forall b :: b in Retain(bs, keep) <==> b in bs && keep(b)
  {
    if bs != [] {
      var n := |bs| - 1;
      RetainMembers(bs[..n], keep);
      assert bs == bs[..n] + [bs[n]];
    }
  }

  // ------------------------------------------------------------------ five minutes

  /** What the five-minute buckets of [lo, hi) must add up to, from any boundary on. */
  ghost predicate RollsUpFive(merged: seq<Bucket>, pool: seq<Bucket>, lo: int, hi: int)
  {
    forall k: Key, cut: int, count: bool :: cut % FIVE_MINUTES == 0 ==>
      BucketsFrom(merged, k, cut, count) ==
      BucketsFrom(pool, k, Max(cut, lo), count) - BucketsFrom(pool, k, Max(cut, hi), count)
  }

  lemma FiveBoundary(start: int, m: int)
    requires start >= 0 && m % FIVE_MINUTES == 0
    ensures m <= FloorTo(start, FIVE_MINUTES) <==> m <= start
    ensures FloorTo(start, FIVE_MINUTES) % FIVE_MINUTES == 0 && FloorTo(start, FIVE_MINUTES) >= 0
  {
  }

  lemma RollsUpFiveOne(merged: seq<Bucket>, merged': seq<Bucket>, pool: seq<Bucket>, b: Bucket, lo: int, hi: int)
    requires RollsUpFive(merged, pool, lo, hi) && b.start >= 0
    requires lo % FIVE_MINUTES == 0 && hi % FIVE_MINUTES == 0 && lo <= hi
    requires if lo <= FloorTo(b.start, FIVE_MINUTES) < hi
             then Added(merged, merged', b.key, FloorTo(b.start, FIVE_MINUTES), b.value, b.n)
             else merged' == merged
    ensures RollsUpFive(merged', pool + [b], lo, hi)
  {
    FiveBoundary(b.start, lo);
    FiveBoundary(b.start, hi);
    assert (pool + [b])[..|pool|] == pool;
    forall k: Key, cut: int, count: bool | cut % FIVE_MINUTES == 0
      ensures BucketsFrom(merged', k, cut, count) ==
              BucketsFrom(pool + [b], k, Max(cut, lo), count) - BucketsFrom(pool + [b], k, Max(cut, hi), count)
    {
      FiveBoundary(b.start, cut);
      assert BucketsFrom(merged, k, cut, count) ==
             BucketsFrom(pool, k, Max(cut, lo), count) - BucketsFrom(pool, k, Max(cut, hi), count);
    }
  }

  method MergeFive(pool: seq<Bucket>, lo: int, hi: int) returns (merged: seq<Bucket>)
    requires lo % FIVE_MINUTES == 0 && hi % FIVE_MINUTES == 0 && lo <= hi
    requires forall i :: 0 <= i < |pool| ==> pool[i].start >= 0
    ensures OnePerSlot(merged) && SlotsIn(merged, FIVE_MINUTES, lo, hi) && RollsUpFive(merged, pool, lo, hi)
    ensures merged == [] <==> forall i :: 0 <= i < |pool| ==> !(lo <= FloorTo(pool[i].start, FIVE_MINUTES) < hi)
  {
    merged := [];
    var i := 0;
    while i < |pool|
      invariant 0 <= i <= |pool|
      invariant OnePerSlot(merged) && SlotsIn(merged, FIVE_MINUTES, lo, hi) && RollsUpFive(merged, pool[..i], lo, hi)
      invariant merged == [] <==> forall j :: 0 <= j < i ==> !(lo <= FloorTo(pool[j].start, FIVE_MINUTES) < hi)
    {
      ghost var before := merged;
      var slot := FloorTo(pool[i].start, FIVE_MINUTES);
      FiveBoundary(pool[i].start, lo);
      if lo <= slot < hi {
        merged := AddToSlot(merged, pool[i].key, slot, FIVE_MINUTES, pool[i].value, pool[i].n);
        FiveSlotsKept(before, merged, pool[i].key, slot, lo, hi);
      }
      RollsUpFiveOne(before, merged, pool[..i], pool[i], lo, hi);
      assert pool[..i + 1] == pool[..i] + [pool[i]];
      i := i + 1;
    }
    assert pool[..i] == pool;
  }

  lemma FiveSlotsKept(before: seq<Bucket>, after: seq<Bucket>, k: Key, slot: int, lo: int, hi: int)
    requires SlotsIn(before, FIVE_MINUTES, lo, hi) && slot >= 0 && slot % FIVE_MINUTES == 0 && lo <= slot < hi
    requires forall b :: b in after ==>
               IdOf(b) == (k, slot, FIVE_MINUTES) || exists a :: a in before && IdOf(a) == IdOf(b)
    ensures SlotsIn(after, FIVE_MINUTES, lo, hi)
  {
    forall b | b in after
      ensures b.seconds == FIVE_MINUTES && b.start >= 0 && b.start % FIVE_MINUTES == 0 && lo <= b.start < hi
    {
    }
  }

  /** The minute buckets waiting for their five-minute window. */
  class FiveMinutes {
    var flushed: int
    var waiting: seq<Bucket>
    ghost var emitted: seq<Bucket>

    ghost predicate Valid()
      reads this
    {
      && 0 <= flushed && flushed % FIVE_MINUTES == 0 && OnceBehind(emitted, flushed, FIVE_MINUTES)
      && (forall i :: 0 <= i < |waiting| ==> waiting[i].start >= 0)
    }

    constructor ()
      ensures Valid() && flushed == 0 && waiting == [] && emitted == []
    {
      flushed, waiting, emitted := 0, [], [];
    }

    /**
     * Finished minutes are taken in only on a turn that closes a window; then the closed windows
     * are summed exactly and the rest waits.  On any other turn the minutes handed in are dropped.
     */
    method Collect(completed: seq<Bucket>, now: real) returns (result: seq<Bucket>)
      requires Valid() && now >= 0.0 && forall i :: 0 <= i < |completed| ==> completed[i].start >= 0
      modifies this
      ensures Valid() && emitted == old(emitted) + result
      ensures flushed == Max(old(flushed), FloorTo(now.Floor, FIVE_MINUTES))
      ensures OnePerSlot(result) && SlotsIn(result, FIVE_MINUTES, old(flushed), flushed)
      ensures flushed == old(flushed) ==> result == [] && waiting == old(waiting)
      ensures flushed != old(flushed) ==>
                RollsUpFive(result, Pool(old(waiting), completed, now), old(flushed), flushed) &&
                waiting == Retain(Pool(old(waiting), completed, now), NotBefore(flushed))
    {
      var hi := FloorTo(now.Floor, FIVE_MINUTES);
      if hi <= flushed {
        return [];
      }
      var pool := Pool(waiting, completed, now);
      RetainMembers(waiting, NotOlder(now));
      assert forall b :: b in pool ==> b.start >= 0;
      result := MergeFive(pool, flushed, hi);
      CollectOnce(emitted, result, flushed, hi, FIVE_MINUTES);
      if result != [] || !exists i :: 0 <= i < |pool| && flushed <= FloorTo(pool[i].start, FIVE_MINUTES) < hi {
        waiting := Retain(pool, SlotNotBefore(hi));
        RetainMembers(pool, SlotNotBefore(hi));
        SameRetain(pool, hi);
        flushed := hi;
      }
      emitted := emitted + result;
    }
  }

  function NotBefore(lo: int): Bucket -> bool
  {
    (b: Bucket) => lo <= b.start
  }

  function SlotNotBefore(lo: int): Bucket -> bool
  {
    (b: Bucket) => b.start >= 0 && lo <= FloorTo(b.start, FIVE_MINUTES)
  }

  function NotOlder(now: real): Bucket -> bool
  {
    (b: Bucket) => now - PENDING_MAX_AGE <= b.start as real
  }

  /** What a closing turn rolls up: the waiting minutes that are not too old, and the new ones. */
  function Pool(waiting: seq<Bucket>, completed: seq<Bucket>, now: real): seq<Bucket>
  {
    Retain(waiting, NotOlder(now)) + completed
  }

  lemma {:induction false} SameRetain(bs: seq<Bucket>, hi: int)
    requires hi % FIVE_MINUTES == 0 && forall b :: b in bs ==> b.start >= 0
    ensures Retain(bs, SlotNotBefore(hi)) == Retain(bs, NotBefore(hi))
  {
    if bs != [] {
      assert bs == bs[..|bs| - 1] + [bs[|bs| - 1]];
      FiveBoundary(bs[|bs| - 1].start, hi);
      SameRetain(bs[..|bs| - 1], hi);
    }
  }

  // ------------------------------------------------------------------ over whole runs

  /** What a turn hands over: the minutes it finished, and the clock. */
  datatype Handed = Handed(minutes: seq<Bucket>, now: real)

  ghost predicate Sound(ts: seq<Handed>)
  {
    forall i :: 0 <= i < |ts| ==> SoundTurn(ts[i])
  }

  ghost predicate SoundTurn(t: Handed)
  {
    t.now >= 0.0 && forall i :: 0 <= i < |t.minutes| ==> t.minutes[i].start >= 0
  }

  function AllMinutes(ts: seq<Handed>): seq<Bucket>
  {
    if ts == [] then [] else AllMinutes(ts[..|ts| - 1]) + ts[|ts| - 1].minutes
  }

  /** The five-minute watermark: the latest window any turn has seen. */
  ghost function Mark(ts: seq<Handed>): int
    requires Sound(ts)
  {
    if ts == [] then 0 else Max(Mark(ts[..|ts| - 1]), FloorTo(ts[|ts| - 1].now.Floor, FIVE_MINUTES))
  }

  /** Turn `i` is the first to see its five-minute window. */
  ghost predicate Closes(ts: seq<Handed>, i: nat)
    requires Sound(ts) && i < |ts|
  {
    Mark(ts[..i]) < FloorTo(ts[i].now.Floor, FIVE_MINUTES)
  }

  /** Where the minutes handed over so far are. */
  datatype Ledger = Ledger(waiting: seq<Bucket>, rolled: seq<Bucket>, lost: seq<Bucket>, aged: seq<Bucket>)

  function Between(lo: int, hi: int): Bucket -> bool
  {
    (b: Bucket) => lo <= b.start < hi
  }

  function Earlier(lo: int): Bucket -> bool
  {
    (b: Bucket) => b.start < lo
  }

  function Older(now: real): Bucket -> bool
  {
    (b: Bucket) => b.start as real < now - PENDING_MAX_AGE
  }

  ghost function Books(ts: seq<Handed>): Ledger
    requires Sound(ts)
  {
    if ts == [] then Ledger([], [], [], [])
    else
      var n := |ts| - 1;
      Entered(Books(ts[..n]), Mark(ts[..n]), Mark(ts), ts[n])
  }

  ghost function Entered(l: Ledger, lo: int, hi: int, t: Handed): Ledger
  {
    if lo == hi then l.(lost := l.lost + t.minutes)
    else
      var pool := Pool(l.waiting, t.minutes, t.now);
      Ledger(Retain(pool, NotBefore(hi)), l.rolled + Retain(pool, Between(lo, hi)),
             l.lost + Retain(pool, Earlier(lo)), l.aged + Retain(l.waiting, Older(t.now)))
  }

  function Copies(bs: seq<Bucket>, b: Bucket): nat
  {
    if bs == [] then 0 else Copies(bs[..|bs| - 1], b) + if bs[|bs| - 1] == b then 1 else 0
  }

  lemma {:induction false} CopiesConcat(a: seq<Bucket>, c: seq<Bucket>, b: Bucket)
    ensures Copies(a + c, b) == Copies(a, b) + Copies(c, b)
  {
    if c == [] {
      assert a + c == a;
    } else {
      CopiesConcat(a, c[..|c| - 1], b);
      assert (a + c)[..|a + c| - 1] == a + c[..|c| - 1];
    }
  }

  lemma {:induction false} CopiesMember(bs: seq<Bucket>, b: Bucket)
    ensures Copies(bs, b) > 0 <==> b in bs
    ensures Distinct(bs) ==> Copies(bs, b) <= 1
  {
    if bs != [] {
      var n := |bs| - 1;
      assert bs == bs[..n] + [bs[n]];
      CopiesMember(bs[..n], b);
    }
  }

  /** Retaining keeps all copies of a bucket or none. */
  lemma {:induction false} RetainCopies(bs: seq<Bucket>, keep: Bucket -> bool, b: Bucket)
    ensures Copies(Retain(bs, keep), b) == if keep(b) then Copies(bs, b) else 0
  {
    if bs != [] {
      var n := |bs| - 1;
      RetainCopies(bs[..n], keep, b);
      var rest := Retain(bs[..n], keep);
      assert (rest + [bs[n]])[..|rest|] == rest;
    }
  }

  /** The number of places in the books that have the bucket. */
  ghost function Entries(l: Ledger, b: Bucket): nat
  {
    Copies(l.waiting, b) + Copies(l.rolled, b) + Copies(l.lost, b) + Copies(l.aged, b)
  }

  lemma EnteredOnce(l: Ledger, lo: int, hi: int, t: Handed, b: Bucket)
    requires lo <= hi
    ensures Entries(Entered(l, lo, hi, t), b) == Entries(l, b) + Copies(t.minutes, b)
  {
    if lo == hi {
      CopiesConcat(l.lost, t.minutes, b);
    } else {
      var pool := Pool(l.waiting, t.minutes, t.now);
      CopiesConcat(Retain(l.waiting, NotOlder(t.now)), t.minutes, b);
      RetainCopies(l.waiting, NotOlder(t.now), b);
      RetainCopies(l.waiting, Older(t.now), b);
      RetainCopies(pool, NotBefore(hi), b);
      RetainCopies(pool, Between(lo, hi), b);
      RetainCopies(pool, Earlier(lo), b);
      CopiesConcat(l.rolled, Retain(pool, Between(lo, hi)), b);
      CopiesConcat(l.lost, Retain(pool, Earlier(lo)), b);
      CopiesConcat(l.aged, Retain(l.waiting, Older(t.now)), b);
    }
  }

  /** Every minute handed over is waiting, rolled up, lost or dropped for age, as often as it was handed over. */
  lemma {:induction false} MinutesAccounted(ts: seq<Handed>, b: Bucket)
    requires Sound(ts)
    ensures Copies(AllMinutes(ts), b) == Entries(Books(ts), b)
  {
    if ts != [] {
      var n := |ts| - 1;
      MinutesAccounted(ts[..n], b);
      EnteredOnce(Books(ts[..n]), Mark(ts[..n]), Mark(ts), ts[n], b);
      CopiesConcat(AllMinutes(ts[..n]), ts[n].minutes, b);
    }
  }

  /** What waits is ahead of the watermark. */
  lemma {:induction false} WaitsAhead(ts: seq<Handed>)
    requires Sound(ts)
    ensures forall b :: b in Books(ts).waiting ==> Mark(ts) <= b.start
  {
    if ts != [] {
      var n := |ts| - 1;
      WaitsAhead(ts[..n]);
      RetainMembers(Pool(Books(ts[..n]).waiting, ts[n].minutes, ts[n].now), NotBefore(Mark(ts)));
    }
  }

  /** Turn `i` hands over the minute in vain: it closes no window, or the minute's window was closed before. */
  ghost predicate LostAt(ts: seq<Handed>, i: nat, b: Bucket)
    requires Sound(ts)
  {
    i < |ts| && b in ts[i].minutes && !(Closes(ts, i) && Mark(ts[..i]) <= b.start)
  }

  ghost predicate LostSomewhere(ts: seq<Handed>, b: Bucket)
    requires Sound(ts)
  {
    exists i: nat :: LostAt(ts, i, b)
  }

  lemma {:induction false} LostPush(ts: seq<Handed>, b: Bucket)
    requires Sound(ts) && ts != []
    ensures var n: nat := |ts| - 1; LostSomewhere(ts, b) <==> LostSomewhere(ts[..n], b) || LostAt(ts, n, b)
  {
    var n: nat := |ts| - 1;
    if i: nat :| LostAt(ts, i, b) {
      if i < n {
        assert ts[..n][..i] == ts[..i];
        assert LostAt(ts[..n], i, b);
      }
    }
    if i: nat :| LostAt(ts[..n], i, b) {
      assert ts[..n][..i] == ts[..i];
      assert LostAt(ts, i, b);
    }
  }

  lemma PoolEarlier(waiting: seq<Bucket>, minutes: seq<Bucket>, now: real, lo: int, b: Bucket)
    requires forall w :: w in waiting ==> lo <= w.start
    ensures b in Retain(Pool(waiting, minutes, now), Earlier(lo)) <==> b in minutes && b.start < lo
  {
    RetainMembers(Pool(waiting, minutes, now), Earlier(lo));
    RetainMembers(waiting, NotOlder(now));
  }

  lemma {:induction false} LostAre(ts: seq<Handed>, b: Bucket)
    requires Sound(ts)
    ensures b in Books(ts).lost <==> LostSomewhere(ts, b)
  {
    if ts != [] {
      var n: nat := |ts| - 1;
      LostAre(ts[..n], b);
      LostPush(ts, b);
      WaitsAhead(ts[..n]);
      PoolEarlier(Books(ts[..n]).waiting, ts[n].minutes, ts[n].now, Mark(ts[..n]), b);
    }
  }

  /**
   * Exactly which minutes the roll-up keeps.  With minutes that are handed over once, the minute of
   * turn `i` is rolled up, waiting or dropped for age at the end iff the turn closes a window and
   * the minute is not behind the watermark the turn found; otherwise it is lost.
   */
  lemma {:induction false} KeptExactly(ts: seq<Handed>, i: nat, b: Bucket)
    requires Sound(ts) && i < |ts| && b in ts[i].minutes && Distinct(AllMinutes(ts))
    ensures b in Books(ts).lost <==> !(Closes(ts, i) && Mark(ts[..i]) <= b.start)
    ensures b in Books(ts).rolled || b in Books(ts).waiting || b in Books(ts).aged <==>
            Closes(ts, i) && Mark(ts[..i]) <= b.start
  {
    LostAre(ts, b);
    if j: nat :| LostAt(ts, j, b) {
      HandedOnce(ts, i, j, b);
    }
    assert LostAt(ts, i, b) ==> LostSomewhere(ts, b);
    HandedCounts(ts, i, b);
    InOnePlace(ts, b);
  }

  lemma {:induction false} InOnePlace(ts: seq<Handed>, b: Bucket)
    requires Sound(ts) && b in AllMinutes(ts) && Distinct(AllMinutes(ts))
    ensures b in Books(ts).rolled || b in Books(ts).waiting || b in Books(ts).aged <==> b !in Books(ts).lost
  {
    var l := Books(ts);
    MinutesAccounted(ts, b);
    CopiesMember(AllMinutes(ts), b);
    CopiesMember(l.rolled, b);
    CopiesMember(l.waiting, b);
    CopiesMember(l.aged, b);
    CopiesMember(l.lost, b);
  }

  lemma {:induction false} HandedCounts(ts: seq<Handed>, i: nat, b: Bucket)
    requires i < |ts| && b in ts[i].minutes
    ensures b in AllMinutes(ts)
  {
    var n := |ts| - 1;
    if i < n {
      HandedCounts(ts[..n], i, b);
    }
  }

  lemma {:induction false} HandedOnce(ts: seq<Handed>, i: nat, j: nat, b: Bucket)
    requires i < |ts| && j < |ts| && b in ts[i].minutes && b in ts[j].minutes && Distinct(AllMinutes(ts))
    ensures i == j
  {
    var n := |ts| - 1;
    var front := AllMinutes(ts[..n]);
    DistinctParts(front, ts[n].minutes);
    if i < n && j < n {
      HandedOnce(ts[..n], i, j, b);
    } else if i < n {
      HandedCounts(ts[..n], i, b);
    } else if j < n {
      HandedCounts(ts[..n], j, b);
    }
  }

  lemma DistinctParts(a: seq<Bucket>, b: seq<Bucket>)
    requires Distinct(a + b)
    ensures Distinct(a) && Distinct(b) && forall x :: x in a ==> x !in b
  {
    var all := a + b;
    assert forall i :: 0 <= i < |a| ==> all[i] == a[i];
    assert forall i :: 0 <= i < |b| ==> all[|a| + i] == b[i];
  }

  /** Nothing handed over is missing from the roll-up: it is rolled up, waits for its window, or was a day old. */
  ghost predicate NothingLost(ts: seq<Handed>)
    requires Sound(ts)
  {
    forall b: Bucket :: Copies(AllMinutes(ts), b) == Copies(Books(ts).rolled, b) + Copies(Books(ts).waiting, b) + Copies(Books(ts).aged, b)
  }

  /** That holds iff every turn with minutes closes a window and finds them ahead of the watermark. */
  lemma {:induction false} NothingLostExactly(ts: seq<Handed>)
    requires Sound(ts)
    ensures NothingLost(ts) <==>
            forall i: nat, b :: i < |ts| && b in ts[i].minutes ==> Closes(ts, i) && Mark(ts[..i]) <= b.start
  {
    forall b: Bucket
      ensures Copies(AllMinutes(ts), b) == Copies(Books(ts).rolled, b) + Copies(Books(ts).waiting, b) + Copies(Books(ts).aged, b)
              <==> !LostSomewhere(ts, b)
    {
      MinutesAccounted(ts, b);
      CopiesMember(Books(ts).lost, b);
      LostAre(ts, b);
    }
    NeverLost(ts);
  }

  lemma {:induction false} NeverLost(ts: seq<Handed>)
    requires Sound(ts)
    ensures (forall b: Bucket :: !LostSomewhere(ts, b)) <==>
            forall i: nat, b :: i < |ts| && b in ts[i].minutes ==> Closes(ts, i) && Mark(ts[..i]) <= b.start
  {
    if forall b: Bucket :: !LostSomewhere(ts, b) {
      forall i: nat, b | i < |ts| && b in ts[i].minutes ensures Closes(ts, i) && Mark(ts[..i]) <= b.start {
        assert !LostSomewhere(ts, b);
        assert !LostAt(ts, i, b);
      }
    }
  }

  /**
   * A minute that finishes in mid-window: once any turn has been in a window, whatever a further turn
   * hands over inside that window is lost, and no later turn brings it back.
   */
  lemma {:induction false} MidWindowMinuteIsLost(before: seq<Handed>, window: int, t: Handed, rest: seq<Handed>, b: Bucket)
    requires Sound(before) && SoundTurn(t) && Sound(rest) && b in t.minutes
    requires Mark(before) == window && window <= t.now.Floor < window + FIVE_MINUTES
    ensures Sound(before + [t] + rest) && b in Books(before + [t] + rest).lost
  {
    var ts := before + [t] + rest;
    var n := |before|;
    assert forall i :: 0 <= i < n ==> ts[i] == before[i];
    assert forall i :: n < i < |ts| ==> ts[i] == rest[i - n - 1];
    assert ts[n] == t && ts[..n] == before;
    MarkAligned(before);
    assert FloorTo(t.now.Floor, FIVE_MINUTES) <= window;
    assert LostAt(ts, n, b);
    LostAre(ts, b);
  }

  lemma {:induction false} MarkAligned(ts: seq<Handed>)
    requires Sound(ts)
    ensures Mark(ts) % FIVE_MINUTES == 0
  {
    if ts != [] {
      MarkAligned(ts[..|ts| - 1]);
    }
  }

  /** There is such a turn for every window: the one at its start. */
  lemma WindowOpens(window: int)
    requires 0 <= window && window % FIVE_MINUTES == 0
    ensures Sound([Handed([], window as real)]) && Mark([Handed([], window as real)]) == window
  {
    var ts := [Handed([], window as real)];
    assert ts[..0] == [] && FloorTo(ts[0].now.Floor, FIVE_MINUTES) == window;
  }

  // ------------------------------------------------------------------ the sums of what was rolled up

  /** Five-minute buckets and the minutes behind them have the same sums from every window on. */
  ghost predicate SumsOf(fives: seq<Bucket>, rolled: seq<Bucket>)
  {
    forall k: Key, cut: int, count: bool {:trigger BucketsFrom(fives, k, cut, count)} :: cut % FIVE_MINUTES == 0 ==>
      BucketsFrom(fives, k, cut, count) == BucketsFrom(rolled, k, cut, count)
  }

  lemma {:induction false} BetweenSums(pool: seq<Bucket>, lo: int, hi: int, k: Key, cut: int, count: bool)
    requires lo <= hi
    ensures BucketsFrom(Retain(pool, Between(lo, hi)), k, cut, count) ==
            BucketsFrom(pool, k, Max(cut, lo), count) - BucketsFrom(pool, k, Max(cut, hi), count)
  {
    if pool != [] {
      var n := |pool| - 1;
      BetweenSums(pool[..n], lo, hi, k, cut, count);
      BucketsConcat(Retain(pool[..n], Between(lo, hi)), [pool[n]], k, cut, count);
    }
  }

  lemma SumsGrow(fives: seq<Bucket>, rolled: seq<Bucket>, result: seq<Bucket>, pool: seq<Bucket>, lo: int, hi: int)
    requires SumsOf(fives, rolled) && RollsUpFive(result, pool, lo, hi) && lo <= hi
    ensures SumsOf(fives + result, rolled + Retain(pool, Between(lo, hi)))
  {
    forall k: Key, cut: int, count: bool | cut % FIVE_MINUTES == 0
      ensures BucketsFrom(fives + result, k, cut, count) == BucketsFrom(rolled + Retain(pool, Between(lo, hi)), k, cut, count)
    {
      BucketsConcat(fives, result, k, cut, count);
      BucketsConcat(rolled, Retain(pool, Between(lo, hi)), k, cut, count);
      BetweenSums(pool, lo, hi, k, cut, count);
      assert BucketsFrom(result, k, cut, count) ==
             BucketsFrom(pool, k, Max(cut, lo), count) - BucketsFrom(pool, k, Max(cut, hi), count);
    }
  }

  /** Between turns the roll-up is where the books say. */
  ghost predicate OnTrack(five: FiveMinutes, ts: seq<Handed>)
    requires Sound(ts)
    reads five
  {
    && five.Valid() && five.flushed == Mark(ts) && five.waiting == Books(ts).waiting
    && SumsOf(five.emitted, Books(ts).rolled)
  }

  /** One turn of the roll-up. */
  method HandOver(five: FiveMinutes, ghost ts: seq<Handed>, t: Handed) returns (result: seq<Bucket>)
    requires Sound(ts) && SoundTurn(t) && OnTrack(five, ts)
    modifies five
    ensures Sound(ts + [t]) && OnTrack(five, ts + [t]) && five.emitted == old(five.emitted) + result
    ensures OnePerSlot(result) && SlotsIn(result, FIVE_MINUTES, old(five.flushed), five.flushed)
  {
    assert (ts + [t])[..|ts|] == ts;
    result := five.Collect(t.minutes, t.now);
    ghost var lo, hi := old(five.flushed), five.flushed;
    if lo == hi {
      assert old(five.emitted) + result == old(five.emitted);
    } else {
      SumsGrow(old(five.emitted), Books(ts).rolled, result, Pool(Books(ts).waiting, t.minutes, t.now), lo, hi);
    }
  }
}

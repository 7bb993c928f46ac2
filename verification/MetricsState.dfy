/** The report thread's mutable state and one turn of its loop. */
module MetricsState {
  import opened Prelude
  import opened MetricsBuckets
  import opened MetricsReport
  import opened MetricsKinds

  type Totals = map<int, (real, Option<int>)>

  /** The first live bucket that a window ending now still covers. */
  function WindowCut(now: real, win: int): int
    requires now >= 0.0
  {
    StartFor(now) - win + LIVE_SECONDS
  }

  /** The aggregation of every live key is that of an event accepted for it. */
  ghost predicate Typed(accepted: seq<Event>, agg: map<Key, Agg>)
  {
    forall k :: k in agg ==> KnownAs(accepted, k, agg[k])
  }

  /** The accounts: what was accepted is emitted, live ahead of the watermark, or late; nothing is emitted twice. */
  ghost predicate Balanced(data: map<Key, seq<LiveBucket>>, flushed: int,
                           accepted: seq<Event>, late: seq<Event>, emitted: seq<Bucket>)
  {
    && Timed(accepted) && Timed(late) && 0 <= flushed && flushed % MINUTE == 0
    && Conserved(accepted, late, emitted, data, flushed) && OnceBehind(emitted, flushed, MINUTE)
  }

  /** The live buckets are those of the accepted events. */
  ghost predicate Current(agg: map<Key, Agg>, data: map<Key, seq<LiveBucket>>, accepted: seq<Event>, trimmed: int)
  {
    && Timed(accepted) && Shaped(agg, data) && Typed(accepted, agg)
    && Chronological(accepted, data) && Faithful(accepted, data, trimmed)
  }

  /** What every step keeps. */
  ghost predicate Inv(agg: map<Key, Agg>, data: map<Key, seq<LiveBucket>>, flushed: int,
                      accepted: seq<Event>, late: seq<Event>, emitted: seq<Bucket>, trimmed: int)
  {
    Balanced(data, flushed, accepted, late, emitted) && Current(agg, data, accepted, trimmed)
  }

  lemma PushShaped(agg: map<Key, Agg>, data: map<Key, seq<LiveBucket>>, e: Event)
    requires Shaped(agg, data) && e.ts >= 0.0 && (e.key in agg ==> agg[e.key] == e.agg)
    ensures Shaped(agg[e.key := e.agg], data[e.key := Push(BucketsOf(data, e.key), e)])
  {
    var bs' := Push(BucketsOf(data, e.key), e);
    assert ShapedAs(e.agg, bs');
  }

  lemma PushBalances(data: map<Key, seq<LiveBucket>>, flushed: int,
                     accepted: seq<Event>, late: seq<Event>, emitted: seq<Bucket>, e: Event,
                     data': map<Key, seq<LiveBucket>>, accepted': seq<Event>, late': seq<Event>)
    requires Balanced(data, flushed, accepted, late, emitted) && e.ts >= 0.0
    requires data' == data[e.key := Push(BucketsOf(data, e.key), e)]
    requires accepted' == accepted + [e] && late' == if StartFor(e.ts) < flushed then late + [e] else late
    ensures Balanced(data', flushed, accepted', late', emitted)
  {
    PushConserves(accepted, late, emitted, data, data', flushed, e);
  }

  lemma PushCurrent(agg: map<Key, Agg>, data: map<Key, seq<LiveBucket>>, accepted: seq<Event>, trimmed: int, e: Event,
                    agg': map<Key, Agg>, data': map<Key, seq<LiveBucket>>, accepted': seq<Event>)
    requires Current(agg, data, accepted, trimmed) && e.ts >= 0.0 && (e.key in agg ==> agg[e.key] == e.agg)
    requires agg' == agg[e.key := e.agg] && data' == data[e.key := Push(BucketsOf(data, e.key), e)]
    requires accepted' == accepted + [e]
    ensures Current(agg', data', accepted', trimmed)
  {
    PushShaped(agg, data, e);
    PushFaithful(accepted, data, data', trimmed, e);
    PushChronological(accepted, data, data', e);
    PushTyped(accepted, agg, e);
  }

  /** One reading of a window: its total and, for averages, its denominator. */
  ghost predicate Reads(totals: Totals, win: int, agg: Agg, value: real, n: real)
  {
    && win in totals && totals[win].0 == value
    && if agg.AvgAgg? then totals[win].1.Some? && totals[win].1.value as real == n else totals[win].1 == None
  }

  /** A key without a reading has no event left in the window. */
  ghost predicate ExactAt(snap: map<Key, Totals>, agg: map<Key, Agg>, accepted: seq<Event>, now: real, k: Key, w: int)
    requires Timed(accepted) && now >= 0.0 && snap.Keys == agg.Keys
  {
    if k in snap then
      InOrder(accepted, k) ==>
        Reads(snap[k], w, agg[k], EventsFrom(accepted, k, WindowCut(now, w), false),
              EventsFrom(accepted, k, WindowCut(now, w), true))
    else
      forall count: bool :: EventsFrom(accepted, k, WindowCut(now, w), count) == 0.0
  }

  ghost predicate Exact(snap: map<Key, Totals>, agg: map<Key, Agg>, accepted: seq<Event>, now: real)
    requires Timed(accepted) && now >= 0.0 && snap.Keys == agg.Keys
  {
    forall k: Key, w :: w in WINDOWS ==> ExactAt(snap, agg, accepted, now, k, w)
  }

  method ReadWindows(bs: seq<LiveBucket>, agg: Agg, now: real) returns (totals: Totals)
    requires now >= 0.0
    ensures totals.Keys == set w | w in WINDOWS
    ensures Ascending(bs) ==> forall w :: w in WINDOWS ==>
              Reads(totals, w, agg, From(bs, WindowCut(now, w), false), From(bs, WindowCut(now, w), true))
  {
    totals := map[];
    var i := 0;
    while i < |WINDOWS|
      invariant 0 <= i <= |WINDOWS|
      invariant totals.Keys == set w | w in WINDOWS[..i]
      invariant Ascending(bs) ==> forall w :: w in WINDOWS[..i] ==>
                  Reads(totals, w, agg, From(bs, WindowCut(now, w), false), From(bs, WindowCut(now, w), true))
    {
      var win := WINDOWS[i];
      var total, n := WindowTotal(bs, WindowCut(now, win));
      totals := totals[win := (total, if agg.AvgAgg? then Some(n) else None)];
      assert WINDOWS[..i + 1] == WINDOWS[..i] + [win];
      i := i + 1;
    }
    assert WINDOWS[..i] == WINDOWS;
  }

  class ReportState {
    var agg: map<Key, Agg>
    var data: map<Key, seq<LiveBucket>>
    var lastSeen: map<Key, real>
    var flushed: int
    /** Everything accepted, the part of it that came behind the watermark, and all minute buckets emitted. */
    ghost var accepted: seq<Event>
    ghost var late: seq<Event>
    ghost var emitted: seq<Bucket>
    /** No bucket from here on was trimmed, and the latest clock reading trimmed at. */
    ghost var trimmed: int
    ghost var clock: real

    ghost predicate Valid()
      reads this
    {
      && Inv(agg, data, flushed, accepted, late, emitted, trimmed) && lastSeen.Keys == agg.Keys
      && Kinds(accepted, agg, data, trimmed)
      && clock >= 0.0 && trimmed <= WindowCut(clock, MAX_WINDOW)
    }

    constructor ()
      ensures Valid() && accepted == [] && emitted == [] && late == [] && agg == map[] && flushed == 0 && clock == 0.0
      ensures trimmed == WindowCut(0.0, MAX_WINDOW)
    {
      agg, data, lastSeen, flushed := map[], map[], map[], 0;
      accepted, late, emitted, trimmed, clock := [], [], [], WindowCut(0.0, MAX_WINDOW), 0.0;
    }

    /** An event whose key is live under another aggregation is dropped; any other is counted. */
    method ApplyEvent(e: Event)
      requires Valid() && e.ts >= 0.0
      modifies `agg, `data, `lastSeen, `accepted, `late
      ensures Valid()
      ensures Rejects(old(agg), e) ==>
                agg == old(agg) && data == old(data) && lastSeen == old(lastSeen) && accepted == old(accepted) && late == old(late)
      ensures !Rejects(old(agg), e) ==>
                && agg == old(agg)[e.key := e.agg] && lastSeen == old(lastSeen)[e.key := e.ts]
                && data == old(data)[e.key := Push(BucketsOf(old(data), e.key), e)]
                && accepted == old(accepted) + [e]
                && late == if StartFor(e.ts) < flushed then old(late) + [e] else old(late)
    {
      if e.key in agg && agg[e.key] != e.agg {
        return;
      }
      CountEvent(e);
    }

    /** The event enters the deque of its key. */
    method CountEvent(e: Event)
      requires Valid() && e.ts >= 0.0 && (e.key in agg ==> agg[e.key] == e.agg)
      modifies `agg, `data, `lastSeen, `accepted, `late
      ensures Valid()
      ensures agg == old(agg)[e.key := e.agg] && lastSeen == old(lastSeen)[e.key := e.ts]
      ensures data == old(data)[e.key := Push(BucketsOf(old(data), e.key), e)]
      ensures accepted == old(accepted) + [e] && late == if StartFor(e.ts) < flushed then old(late) + [e] else old(late)
    {
      var buckets := if e.key in data then data[e.key] else [];
      var agg', data' := agg[e.key := e.agg], data[e.key := Push(buckets, e)];
      ghost var accepted', late' := accepted + [e], if StartFor(e.ts) < flushed then late + [e] else late;
      PushBalances(data, flushed, accepted, late, emitted, e, data', accepted', late');
      PushCurrent(agg, data, accepted, trimmed, e, agg', data', accepted');
      PushKinds(accepted, agg, data, trimmed, e, accepted', agg', data');
      agg, data, accepted, late := agg', data', accepted', late';
      lastSeen := lastSeen[e.key := e.ts];
    }

    /** Every window of every key equals the plain sum over its accepted events, as long as the clock did not step back. */
    method Snapshot(now: real) returns (snap: map<Key, Totals>)
      requires Valid() && now >= 0.0
      ensures snap.Keys == agg.Keys
      ensures clock <= now ==> Exact(snap, agg, accepted, now)
    {
      snap := ReadAll(agg, data, now);
      if clock <= now {
        forall k: Key, w | w in WINDOWS ensures ExactAt(snap, agg, accepted, now, k, w) {
          WindowExact(agg, data, accepted, trimmed, clock, now, k, w, snap);
        }
      }
    }

    /** The minutes between the watermark and the current one, each once; the watermark always moves up. */
    method CollectMinutes(now: real) returns (result: seq<Bucket>)
      requires Valid() && now >= 0.0
      modifies `flushed, `emitted
      ensures Valid() && emitted == old(emitted) + result
      ensures flushed == Max(old(flushed), FloorTo(now.Floor, MINUTE))
      ensures Collected(result, data.Keys, data, old(flushed), flushed)
    {
      var hi := FloorTo(now.Floor, MINUTE);
      if hi <= flushed {
        NothingToCollect(data, flushed);
        return [];
      }
      result := CollectKeys(agg, data, flushed, hi);
      CollectBalances(data, flushed, accepted, late, emitted, result, hi);
      if result != [] || !HasRaw(agg, data, flushed, hi) {
        flushed := hi;
      }
      emitted := emitted + result;
    }

    /** Buckets older than every window leave once they are behind the watermark; then keys without buckets. */
    method TrimBuckets(now: real)
      requires Valid() && now >= 0.0
      modifies `agg, `data, `lastSeen, `trimmed, `clock
      ensures Valid()
      ensures TrimmedTo(old(data), data, Min(WindowCut(now, MAX_WINDOW), flushed))
      ensures data.Keys <= old(data).Keys && forall k :: k in data ==> data[k] != [] && agg[k] == old(agg)[k]
      ensures clock == if old(clock) < now then now else old(clock)
      ensures trimmed == Max(old(trimmed), Min(WindowCut(now, MAX_WINDOW), flushed))
      ensures old(trimmed) <= Min(WindowCut(now, MAX_WINDOW), flushed) ==> Backed(accepted, agg, trimmed)
    {
      var cutoff := Min(WindowCut(now, MAX_WINDOW), flushed);
      var kept := PopAll(data, cutoff);
      var agg', lastSeen' := Restrict(agg, kept.Keys), Restrict(lastSeen, kept.Keys);
      ghost var clock' := if clock < now then now else clock;
      TrimBalances(data, flushed, accepted, late, emitted, cutoff, kept);
      TrimCurrent(agg, data, accepted, trimmed, cutoff, agg', kept, Max(trimmed, cutoff));
      TrimKinds(accepted, agg, data, trimmed, cutoff, agg', kept);
      TrimClock(clock, now, trimmed, cutoff);
      TrimSweeps(accepted, agg', data, kept, cutoff);
      agg, lastSeen, data, trimmed, clock := agg', lastSeen', kept, Max(trimmed, cutoff), clock';
    }

    /** One turn: the waiting events, the snapshot, the finished minutes, trimming. */
    method DrainAndProcess(events: seq<Event>, collect: bool, now: real, ghost steady: bool)
      returns (snap: map<Key, Totals>, completed: seq<Bucket>, ghost added: seq<Event>, ghost kinds: map<Key, Agg>)
      requires Valid() && Timed(events) && now >= 0.0 && (steady ==> Backed(accepted, agg, trimmed))
      modifies this
      ensures Valid() && Accepts(old(accepted), old(trimmed), steady, events, added)
      ensures Tallied(old(accepted), old(late), added, accepted, late, old(flushed))
      ensures snap.Keys == kinds.Keys && Typed(accepted, kinds)
      ensures old(clock) <= now ==> Exact(snap, kinds, accepted, now) && clock == now
      ensures flushed == if collect then Max(old(flushed), FloorTo(now.Floor, MINUTE)) else old(flushed)
      ensures trimmed == Max(old(trimmed), Min(WindowCut(now, MAX_WINDOW), flushed))
      ensures old(trimmed) <= Min(WindowCut(now, MAX_WINDOW), flushed) ==> Backed(accepted, agg, trimmed)
      ensures emitted == old(emitted) + completed && (!collect ==> completed == [])
      ensures OnePerSlot(completed) && SlotsIn(completed, MINUTE, old(flushed), flushed)
    {
      added := DrainEvents(events, steady);
      kinds := agg;
      snap := Snapshot(now);
      completed := [];
      if collect {
        completed := CollectMinutes(now);
      }
      TrimBuckets(now);
    }

    /** The waiting events; `added` are those accepted. */
    method DrainEvents(events: seq<Event>, ghost steady: bool) returns (ghost added: seq<Event>)
      requires Valid() && Timed(events) && (steady ==> Backed(accepted, agg, trimmed))
      modifies `agg, `data, `lastSeen, `accepted, `late
      ensures Valid() && Accepts(old(accepted), trimmed, steady, events, added)
      ensures Tallied(old(accepted), old(late), added, accepted, late, flushed)
    {
      added := [];
      DrainBegins(accepted, agg, data, trimmed, steady);
      for i := 0 to |events|
        invariant Valid() && DrainedTo(old(accepted), old(late), trimmed, flushed, steady, events[..i], added, agg, accepted, late)
      {
        added := DrainOne(old(accepted), old(late), steady, events, i, added);
      }
      assert events[..|events|] == events;
    }

    method DrainOne(ghost start: seq<Event>, ghost lateStart: seq<Event>, ghost steady: bool, events: seq<Event>, i: nat,
                    ghost added: seq<Event>)
      returns (ghost added': seq<Event>)
      requires Valid() && i < |events| && events[i].ts >= 0.0
      requires DrainedTo(start, lateStart, trimmed, flushed, steady, events[..i], added, agg, accepted, late)
      modifies `agg, `data, `lastSeen, `accepted, `late
      ensures Valid() && DrainedTo(start, lateStart, trimmed, flushed, steady, events[..i + 1], added', agg, accepted, late)
    {
      ghost var agg0, accepted0, late0 := agg, accepted, late;
      ApplyEvent(events[i]);
      added' := DrainStep(start, lateStart, trimmed, flushed, steady, events, i, added, agg0, accepted0, late0, agg, accepted, late);
    }
  }

  /** The key is live under another aggregation. */
  predicate Rejects(agg: map<Key, Agg>, e: Event)
  {
    e.key in agg && agg[e.key] != e.agg
  }

  /** What draining these events has done. */
  ghost predicate DrainedTo(start: seq<Event>, lateStart: seq<Event>, cut: int, mark: int, steady: bool, drained: seq<Event>,
                            added: seq<Event>, agg: map<Key, Agg>, accepted: seq<Event>, late: seq<Event>)
  {
    && Timed(start) && Tallied(start, lateStart, added, accepted, late, mark)
    && Accepts(start, cut, steady, drained, added) && Draining(start, cut, steady, added, agg)
  }

  lemma DrainStep(start: seq<Event>, lateStart: seq<Event>, cut: int, mark: int, steady: bool, events: seq<Event>, i: nat,
                  added: seq<Event>, agg: map<Key, Agg>, accepted: seq<Event>, late: seq<Event>,
                  agg': map<Key, Agg>, accepted': seq<Event>, late': seq<Event>)
    returns (added': seq<Event>)
    requires i < |events| && events[i].ts >= 0.0
    requires DrainedTo(start, lateStart, cut, mark, steady, events[..i], added, agg, accepted, late)
    requires var e := events[i];
             if Rejects(agg, e) then agg' == agg && accepted' == accepted && late' == late
             else agg' == agg[e.key := e.agg] && accepted' == accepted + [e]
                  && late' == if StartFor(e.ts) < mark then late + [e] else late
    ensures DrainedTo(start, lateStart, cut, mark, steady, events[..i + 1], added', agg', accepted', late')
  {
    var e := events[i];
    added' := if Rejects(agg, e) then added else added + [e];
    assert events[..i + 1] == events[..i] + [e];
    AcceptsOne(start, cut, steady, events[..i], added, e, agg);
    if !Rejects(agg, e) {
      TallyOne(start, lateStart, added, accepted, late, mark, e);
      DrainCounts(start, cut, steady, added, agg, e);
    }
  }

  lemma TrimSweeps(accepted: seq<Event>, agg: map<Key, Agg>, data: map<Key, seq<LiveBucket>>, kept: map<Key, seq<LiveBucket>>, cutoff: int)
    requires Timed(accepted) && Sourced(accepted, agg, kept) && agg.Keys == kept.Keys && TrimmedTo(data, kept, cutoff)
    requires forall k :: k in kept ==> kept[k] != []
    ensures Backed(accepted, agg, cutoff)
  {
    forall k | k in kept ensures cutoff <= kept[k][0].start {
      assert Shortened(BucketsOf(data, k), BucketsOf(kept, k), cutoff);
    }
    TrimBacks(accepted, agg, kept, cutoff);
  }

  /** The history grew by `added`, and the late events by those of them behind the mark. */
  ghost predicate Tallied(start: seq<Event>, lateStart: seq<Event>, added: seq<Event>, accepted: seq<Event>, late: seq<Event>, mark: int)
  {
    Timed(added) && accepted == start + added && late == lateStart + Behind(added, mark)
  }

  lemma TallyOne(start: seq<Event>, lateStart: seq<Event>, added: seq<Event>, accepted: seq<Event>, late: seq<Event>, mark: int, e: Event)
    requires Tallied(start, lateStart, added, accepted, late, mark) && e.ts >= 0.0
    ensures Tallied(start, lateStart, added + [e], accepted + [e], if StartFor(e.ts) < mark then late + [e] else late, mark)
  {
    BehindPush(added, e, mark);
    Regroup(start, added, e);
    Regroup(lateStart, Behind(added, mark), e);
  }

  lemma Regroup(a: seq<Event>, b: seq<Event>, e: Event)
    ensures a + (b + [e]) == a + b + [e]
  {
  }

  /** The events that fall behind a mark, in order. */
  ghost function Behind(es: seq<Event>, mark: int): seq<Event>
    requires Timed(es)
  {
    if es == [] then []
    else
      var rest, last := Behind(es[..|es| - 1], mark), es[|es| - 1];
      if StartFor(last.ts) < mark then rest + [last] else rest
  }

  lemma BehindPush(es: seq<Event>, e: Event, mark: int)
    requires Timed(es) && e.ts >= 0.0
    ensures Behind(es + [e], mark) == if StartFor(e.ts) < mark then Behind(es, mark) + [e] else Behind(es, mark)
  {
    assert (es + [e])[..|es|] == es;
  }

  lemma TrimClock(clock: real, now: real, trimmed: int, cutoff: int)
    requires clock >= 0.0 && now >= 0.0 && trimmed <= WindowCut(clock, MAX_WINDOW) && cutoff <= WindowCut(now, MAX_WINDOW)
    ensures Max(trimmed, cutoff) <= WindowCut(if clock < now then now else clock, MAX_WINDOW)
  {
    CutsRise(clock, if clock < now then now else clock, MAX_WINDOW);
    CutsRise(now, if clock < now then now else clock, MAX_WINDOW);
  }

  function Restrict<V>(m: map<Key, V>, keys: set<Key>): map<Key, V>
    requires keys <= m.Keys
  {
    map k | k in keys :: m[k]
  }

  /** Some live bucket lies in a minute between the two marks. */
  predicate HasRaw(ghost agg: map<Key, Agg>, data: map<Key, seq<LiveBucket>>, lo: int, hi: int)
    requires Shaped(agg, data)
  {
    exists k :: k in data && exists i :: 0 <= i < |data[k]| && InRange(data[k][i], lo, hi)
  }

  method CollectKeys(agg: map<Key, Agg>, data: map<Key, seq<LiveBucket>>, lo: int, hi: int) returns (result: seq<Bucket>)
    requires Shaped(agg, data) && lo <= hi && lo % MINUTE == 0 && hi % MINUTE == 0
    ensures Collected(result, data.Keys, data, lo, hi)
    ensures result == [] ==> !HasRaw(agg, data, lo, hi)
  {
    result := [];
    var todo := agg.Keys;
    while todo != {}
      invariant todo <= agg.Keys
      invariant Collected(result, data.Keys - todo, data, lo, hi)
      invariant result == [] ==> forall k :: k in data.Keys - todo ==> forall i :: 0 <= i < |data[k]| ==> !InRange(data[k][i], lo, hi)
    {
      var k :| k in todo;
      var merged := MergeMinutes(k, agg[k], data[k], lo, hi);
      CollectOne(result, merged, k, data.Keys - todo, data, lo, hi);
      result := result + merged;
      assert data.Keys - todo + {k} == data.Keys - (todo - {k});
      todo := todo - {k};
    }
    assert data.Keys - todo == data.Keys;
  }

  lemma CollectBalances(data: map<Key, seq<LiveBucket>>, flushed: int, accepted: seq<Event>, late: seq<Event>,
                        emitted: seq<Bucket>, result: seq<Bucket>, hi: int)
    requires Balanced(data, flushed, accepted, late, emitted)
    requires Collected(result, data.Keys, data, flushed, hi) && flushed <= hi && hi % MINUTE == 0
    ensures Balanced(data, hi, accepted, late, emitted + result)
  {
    CollectConserves(accepted, late, emitted, result, data, flushed, hi);
    CollectOnce(emitted, result, flushed, hi, MINUTE);
  }

  method ReadAll(agg: map<Key, Agg>, data: map<Key, seq<LiveBucket>>, now: real) returns (snap: map<Key, Totals>)
    requires agg.Keys == data.Keys && now >= 0.0
    ensures snap.Keys == agg.Keys
    ensures forall k :: k in agg && Ascending(data[k]) ==> forall w :: w in WINDOWS ==>
              Reads(snap[k], w, agg[k], From(data[k], WindowCut(now, w), false), From(data[k], WindowCut(now, w), true))
  {
    snap := map[];
    var todo := agg.Keys;
    while todo != {}
      invariant todo <= agg.Keys && snap.Keys == agg.Keys - todo
      invariant forall k :: k in snap && Ascending(data[k]) ==> forall w :: w in WINDOWS ==>
                  Reads(snap[k], w, agg[k], From(data[k], WindowCut(now, w), false), From(data[k], WindowCut(now, w), true))
    {
      var k :| k in todo;
      var totals := ReadWindows(data[k], agg[k], now);
      snap := snap[k := totals];
      todo := todo - {k};
    }
  }

  lemma WindowExact(agg: map<Key, Agg>, data: map<Key, seq<LiveBucket>>, accepted: seq<Event>, trimmed: int,
                    clock: real, now: real, k: Key, w: int, snap: map<Key, Totals>)
    requires Current(agg, data, accepted, trimmed) && 0.0 <= clock <= now
    requires trimmed <= WindowCut(clock, MAX_WINDOW) && w in WINDOWS && snap.Keys == agg.Keys
    requires k in agg && Ascending(data[k]) ==>
               Reads(snap[k], w, agg[k], From(data[k], WindowCut(now, w), false), From(data[k], WindowCut(now, w), true))
    ensures ExactAt(snap, agg, accepted, now, k, w)
  {
    CutsRise(clock, now, w);
    FaithfulAt(accepted, data, trimmed, k, WindowCut(now, w));
  }

  function Min(a: int, b: int): int
  {
    if a < b then a else b
  }

  method PopAll(data: map<Key, seq<LiveBucket>>, cutoff: int) returns (kept: map<Key, seq<LiveBucket>>)
    ensures TrimmedTo(data, kept, cutoff)
    ensures kept.Keys <= data.Keys && forall k :: k in kept ==> kept[k] != []
  {
    kept := map[];
    var todo := data.Keys;
    while todo != {}
      invariant todo <= data.Keys && kept.Keys <= data.Keys - todo
      invariant forall k :: k in kept ==> kept[k] != []
      invariant forall k :: k in data.Keys - todo ==> Shortened(data[k], BucketsOf(kept, k), cutoff)
    {
      var k :| k in todo;
      var rest := PopFront(data[k], cutoff);
      if rest != [] {
        kept := kept[k := rest];
      }
      todo := todo - {k};
    }
  }

  lemma CutsRise(a: real, b: real, win: int)
    requires 0.0 <= a <= b
    ensures WindowCut(a, win) <= WindowCut(b, win)
  {
    assert a.Floor <= b.Floor;
  }

  lemma FaithfulAt(accepted: seq<Event>, data: map<Key, seq<LiveBucket>>, trimmed: int, k: Key, cut: int)
    requires Timed(accepted) && Faithful(accepted, data, trimmed) && trimmed <= cut
    ensures forall count: bool :: EventsFrom(accepted, k, cut, count) == if k in data then From(data[k], cut, count) else 0.0
  {
    forall count: bool
      ensures EventsFrom(accepted, k, cut, count) == if k in data then From(data[k], cut, count) else 0.0
    {
      assert EventsFrom(accepted, k, cut, count) == From(BucketsOf(data, k), cut, count);
    }
  }

  lemma NothingToCollect(data: map<Key, seq<LiveBucket>>, lo: int)
    ensures Collected([], data.Keys, data, lo, lo)
  {
  }

  lemma TrimBalances(data: map<Key, seq<LiveBucket>>, flushed: int, accepted: seq<Event>, late: seq<Event>,
                     emitted: seq<Bucket>, cutoff: int, kept: map<Key, seq<LiveBucket>>)
    requires Balanced(data, flushed, accepted, late, emitted) && TrimmedTo(data, kept, cutoff) && cutoff <= flushed
    ensures Balanced(kept, flushed, accepted, late, emitted)
  {
    TrimConserves(accepted, late, emitted, data, kept, flushed, cutoff);
  }

  lemma TrimShaped(agg: map<Key, Agg>, data: map<Key, seq<LiveBucket>>, cutoff: int,
                   agg': map<Key, Agg>, kept: map<Key, seq<LiveBucket>>)
    requires Shaped(agg, data) && TrimmedTo(data, kept, cutoff) && kept.Keys <= data.Keys
    requires agg'.Keys == kept.Keys && (forall k :: k in kept ==> agg'[k] == agg[k])
    ensures Shaped(agg', kept)
  {
    forall k | k in kept ensures ShapedAs(agg'[k], kept[k]) {
      SuffixAscends(BucketsOf(data, k), BucketsOf(kept, k), cutoff);
    }
  }

  lemma TrimCurrent(agg: map<Key, Agg>, data: map<Key, seq<LiveBucket>>, accepted: seq<Event>, trimmed: int,
                    cutoff: int, agg': map<Key, Agg>, kept: map<Key, seq<LiveBucket>>, trimmed': int)
    requires Current(agg, data, accepted, trimmed) && TrimmedTo(data, kept, cutoff) && kept.Keys <= data.Keys
    requires agg'.Keys == kept.Keys && (forall k :: k in kept ==> agg'[k] == agg[k]) && trimmed' == Max(trimmed, cutoff)
    ensures Current(agg', kept, accepted, trimmed')
  {
    TrimShaped(agg, data, cutoff, agg', kept);
    TrimFaithful(accepted, data, kept, trimmed, cutoff);
    TrimChronological(accepted, data, kept, cutoff);
  }

  lemma PushTyped(accepted: seq<Event>, agg: map<Key, Agg>, e: Event)
    requires Typed(accepted, agg)
    ensures Typed(accepted + [e], agg[e.key := e.agg])
  {
    var es := accepted + [e];
    assert es[|accepted|] == e;
    forall k | k in agg ensures KnownAs(es, k, agg[k]) {
      var i :| 0 <= i < |accepted| && accepted[i].key == k && accepted[i].agg == agg[k];
      assert es[i] == accepted[i];
    }
  }
}

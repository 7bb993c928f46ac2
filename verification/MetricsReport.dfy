/**
 * The report thread's state: live buckets per key, the minute roll-up behind a watermark, window
 * snapshots and trimming.  Ghost fields keep the whole history that the roll-up is measured against.
 */
module MetricsReport {
  import opened Prelude
  import opened MetricsBuckets

  const WINDOWS: seq<int> := [30, 60]

  // ------------------------------------------------------------------ the invariant, on values

  function BucketsOf(data: map<Key, seq<LiveBucket>>, k: Key): seq<LiveBucket>
  {
    if k in data then data[k] else []
  }

  ghost predicate Timed(es: seq<Event>)
  {
    forall i :: 0 <= i < |es| ==> es[i].ts >= 0.0
  }

  ghost predicate Shaped(agg: map<Key, Agg>, data: map<Key, seq<LiveBucket>>)
  {
    agg.Keys == data.Keys && forall k :: k in data ==> ShapedAs(agg[k], data[k])
  }

  /** Only averages carry a denominator. */
  ghost predicate ShapedAs(a: Agg, bs: seq<LiveBucket>)
  {
    forall i :: 0 <= i < |bs| ==> bs[i].start >= 0 && (bs[i].n.Some? <==> a.AvgAgg?)
  }

  function Max(a: int, b: int): int
  {
    if a < b then b else a
  }

  /**
   * Nothing accepted is lost, from any minute on: it is emitted, still to be emitted, or came too
   * late.  Two neighbouring minutes give the contents of a single minute bucket.
   */
  ghost predicate Conserved(accepted: seq<Event>, late: seq<Event>, emitted: seq<Bucket>,
                            data: map<Key, seq<LiveBucket>>, flushed: int)
    requires Timed(accepted) && Timed(late)
  {
    forall k: Key, cut: int, count: bool {:trigger BucketsFrom(emitted, k, cut, count)} :: cut % MINUTE == 0 ==>
      EventsFrom(accepted, k, cut, count) ==
      BucketsFrom(emitted, k, cut, count)
      + From(BucketsOf(data, k), Max(cut, flushed), count)
      + EventsFrom(late, k, cut, count)
  }

  /** From `trimmed` on the live buckets of every key add up to its accepted events. */
  ghost predicate Faithful(accepted: seq<Event>, data: map<Key, seq<LiveBucket>>, trimmed: int)
    requires Timed(accepted)
  {
    forall k: Key, cut: int, count: bool {:trigger EventsFrom(accepted, k, cut, count)} :: trimmed <= cut ==>
      From(BucketsOf(data, k), cut, count) == EventsFrom(accepted, k, cut, count)
  }

  /** The events of a key reach the thread in the order of their live buckets. */
  ghost predicate InOrder(es: seq<Event>, k: Key)
    requires Timed(es)
  {
    forall i, j :: 0 <= i < j < |es| && es[i].key == k && es[j].key == k ==> StartFor(es[i].ts) <= StartFor(es[j].ts)
  }

  ghost predicate Heard(es: seq<Event>, k: Key, start: int)
    requires Timed(es)
  {
    exists i :: 0 <= i < |es| && es[i].key == k && StartFor(es[i].ts) == start
  }

  ghost predicate Chronological(accepted: seq<Event>, data: map<Key, seq<LiveBucket>>)
    requires Timed(accepted)
  {
    forall k :: k in data ==> Orderly(accepted, k, data[k])
  }

  /** Every bucket stems from an event, and events in order give buckets in order. */
  ghost predicate Orderly(accepted: seq<Event>, k: Key, bs: seq<LiveBucket>)
    requires Timed(accepted)
  {
    && (forall i :: 0 <= i < |bs| ==> Heard(accepted, k, bs[i].start))
    && (InOrder(accepted, k) ==> Ascending(bs))
  }

  /** Every emitted bucket is a whole window behind the watermark, and no id occurs twice. */
  ghost predicate OnceBehind(emitted: seq<Bucket>, flushed: int, size: int)
    requires size > 0
  {
    && (forall i :: 0 <= i < |emitted| ==>
          emitted[i].seconds == size && 0 <= emitted[i].start < flushed && emitted[i].start % size == 0)
    && (forall i, j :: 0 <= i < j < |emitted| ==> IdOf(emitted[i]) != IdOf(emitted[j]))
  }

  // ------------------------------------------------------------------ merging into slots

  ghost predicate OnePerSlot(merged: seq<Bucket>)
  {
    forall i, j :: 0 <= i < j < |merged| ==> IdOf(merged[i]) != IdOf(merged[j])
  }

  ghost predicate SlotsIn(merged: seq<Bucket>, size: int, lo: int, hi: int)
    requires size > 0
  {
    forall i :: 0 <= i < |merged| ==>
      merged[i].seconds == size && merged[i].start >= 0 && merged[i].start % size == 0 && lo <= merged[i].start < hi
  }

  /** The sums of `r` are those of `merged` and one contribution. */
  ghost predicate Added(merged: seq<Bucket>, r: seq<Bucket>, key: Key, slot: int, value: real, n: Option<int>)
  {
    forall k: Key, cut: int, count: bool ::
      BucketsFrom(r, k, cut, count) ==
      BucketsFrom(merged, k, cut, count) + if k == key && cut <= slot then Weight(value, n, count) else 0.0
  }

  /**
   * The entry of a slot is opened on first use and then added to.  The table is kept as a list with
   * one entry per slot; its order means nothing.
   */
  method AddToSlot(merged: seq<Bucket>, key: Key, slot: int, size: int, value: real, n: Option<int>)
    returns (r: seq<Bucket>)
    requires OnePerSlot(merged)
    ensures OnePerSlot(r) && r != []
    ensures Added(merged, r, key, slot, value, n)
    ensures forall b :: b in r ==>
              IdOf(b) == (key, slot, size) || exists a :: a in merged && IdOf(a) == IdOf(b)
  {
    var i := FindSlot(merged, (key, slot, size));
    if i < |merged| {
      var b := merged[i];
      var b' := b.(value := b.value + value, n := if n.Some? then Some(OrZero(b.n) + OrZero(n)) else b.n);
      r := merged[i := b'];
      SlotGrows(merged, i, value, n, b');
    } else {
      var b := Bucket(key, slot, size, 0.0 + value, if n.Some? then Some(0 + OrZero(n)) else None);
      r := merged + [b];
      SlotOpens(merged, value, n, b);
    }
  }

  method FindSlot(merged: seq<Bucket>, id: BucketId) returns (i: nat)
    ensures i <= |merged| && (i < |merged| ==> IdOf(merged[i]) == id)
    ensures forall j :: 0 <= j < i ==> IdOf(merged[j]) != id
  {
    i := 0;
    while i < |merged| && IdOf(merged[i]) != id
      invariant i <= |merged|
      invariant forall j :: 0 <= j < i ==> IdOf(merged[j]) != id
    {
      i := i + 1;
    }
  }

  lemma SlotGrows(merged: seq<Bucket>, i: nat, value: real, n: Option<int>, b: Bucket)
    requires i < |merged| && IdOf(b) == IdOf(merged[i]) && b.value == merged[i].value + value
    requires b.n == if n.Some? then Some(OrZero(merged[i].n) + OrZero(n)) else merged[i].n
    ensures Added(merged, merged[i := b], b.key, b.start, value, n)
  {
    forall k: Key, cut: int, count: bool
      ensures BucketsFrom(merged[i := b], k, cut, count) ==
              BucketsFrom(merged, k, cut, count) + if k == b.key && cut <= b.start then Weight(value, n, count) else 0.0
    {
      BucketsUpdate(merged, i, b, k, cut, count);
    }
  }

  lemma SlotOpens(merged: seq<Bucket>, value: real, n: Option<int>, b: Bucket)
    requires b.value == value && b.n == (if n.Some? then Some(OrZero(n)) else None)
    ensures Added(merged, merged + [b], b.key, b.start, value, n)
  {
    assert (merged + [b])[..|merged|] == merged;
  }

  /** What a key's minute buckets in [lo, hi) must add up to, from any minute on. */
  ghost predicate RollsUp(merged: seq<Bucket>, k: Key, bs: seq<LiveBucket>, lo: int, hi: int)
  {
    forall cut: int, count: bool :: cut % MINUTE == 0 ==>
      BucketsFrom(merged, k, cut, count) == From(bs, Max(cut, lo), count) - From(bs, Max(cut, hi), count)
  }

  predicate InRange(b: LiveBucket, lo: int, hi: int)
    requires b.start >= 0
  {
    lo <= FloorTo(b.start, MINUTE) < hi
  }

  lemma RollsUpOne(merged: seq<Bucket>, merged': seq<Bucket>, k: Key, bs: seq<LiveBucket>, b: LiveBucket, lo: int, hi: int)
    requires RollsUp(merged, k, bs, lo, hi) && b.start >= 0 && lo % MINUTE == 0 && hi % MINUTE == 0 && lo <= hi
    requires if InRange(b, lo, hi) then Added(merged, merged', k, FloorTo(b.start, MINUTE), b.value, b.n)
             else merged' == merged
    ensures RollsUp(merged', k, bs + [b], lo, hi)
  {
    var slot := FloorTo(b.start, MINUTE);
    MinuteBoundary(b.start, lo);
    MinuteBoundary(b.start, hi);
    forall cut: int, count: bool | cut % MINUTE == 0
      ensures BucketsFrom(merged', k, cut, count) == From(bs + [b], Max(cut, lo), count) - From(bs + [b], Max(cut, hi), count)
    {
      MinuteBoundary(b.start, cut);
      FromSplitLast(bs, b, Max(cut, lo), count);
      FromSplitLast(bs, b, Max(cut, hi), count);
      assert BucketsFrom(merged, k, cut, count) == From(bs, Max(cut, lo), count) - From(bs, Max(cut, hi), count);
    }
  }

  /** The minute buckets of one key. */
  method MergeMinutes(k: Key, agg: Agg, bs: seq<LiveBucket>, lo: int, hi: int) returns (merged: seq<Bucket>)
    requires lo % MINUTE == 0 && hi % MINUTE == 0 && lo <= hi
    requires forall i :: 0 <= i < |bs| ==> bs[i].start >= 0 && (bs[i].n.Some? <==> agg.AvgAgg?)
    ensures OnePerSlot(merged) && SlotsIn(merged, MINUTE, lo, hi) && RollsUp(merged, k, bs, lo, hi)
    ensures forall b :: b in merged ==> b.key == k
    ensures merged == [] <==> forall i :: 0 <= i < |bs| ==> !InRange(bs[i], lo, hi)
  {
    merged := [];
    var i := 0;
    while i < |bs|
      invariant 0 <= i <= |bs|
      invariant OnePerSlot(merged) && SlotsIn(merged, MINUTE, lo, hi) && RollsUp(merged, k, bs[..i], lo, hi)
      invariant forall b :: b in merged ==> b.key == k
      invariant merged == [] <==> forall j :: 0 <= j < i ==> !InRange(bs[j], lo, hi)
    {
      ghost var before := merged;
      var slot := FloorTo(bs[i].start, MINUTE);
      MinuteBoundary(bs[i].start, lo);
      if lo <= slot < hi {
        merged := AddToSlot(merged, k, slot, MINUTE, bs[i].value,
                            if agg.AvgAgg? then Some(OrZero(bs[i].n)) else None);
        SlotsKept(before, merged, k, slot, lo, hi);
      }
      RollsUpOne(before, merged, k, bs[..i], bs[i], lo, hi);
      assert bs[..i + 1] == bs[..i] + [bs[i]];
      i := i + 1;
    }
    assert bs[..i] == bs;
  }

  lemma SlotsKept(before: seq<Bucket>, after: seq<Bucket>, k: Key, slot: int, lo: int, hi: int)
    requires SlotsIn(before, MINUTE, lo, hi) && slot >= 0 && slot % MINUTE == 0 && lo <= slot < hi
    requires forall b :: b in before ==> b.key == k
    requires forall b :: b in after ==>
               IdOf(b) == (k, slot, MINUTE) || exists a :: a in before && IdOf(a) == IdOf(b)
    ensures SlotsIn(after, MINUTE, lo, hi)
    ensures forall b :: b in after ==> b.key == k
  {
    forall b | b in after
      ensures b.key == k && b.seconds == MINUTE && b.start >= 0 && b.start % MINUTE == 0 && lo <= b.start < hi
    {
    }
  }

  // ------------------------------------------------------------------ collecting over all keys

  ghost predicate Collected(result: seq<Bucket>, done: set<Key>, data: map<Key, seq<LiveBucket>>, lo: int, hi: int)
  {
    && OnePerSlot(result) && SlotsIn(result, MINUTE, lo, hi)
    && (forall b :: b in result ==> b.key in done)
    && (forall k :: k in done ==> RollsUp(result, k, BucketsOf(data, k), lo, hi))
  }

  lemma CollectOne(result: seq<Bucket>, merged: seq<Bucket>, k: Key, done: set<Key>,
                   data: map<Key, seq<LiveBucket>>, lo: int, hi: int)
    requires Collected(result, done, data, lo, hi) && k !in done
    requires OnePerSlot(merged) && SlotsIn(merged, MINUTE, lo, hi) && RollsUp(merged, k, BucketsOf(data, k), lo, hi)
    requires forall b :: b in merged ==> b.key == k
    ensures Collected(result + merged, done + {k}, data, lo, hi)
  {
    forall k' | k' in done + {k} ensures RollsUp(result + merged, k', BucketsOf(data, k'), lo, hi) {
      forall cut: int, count: bool | cut % MINUTE == 0
        ensures BucketsFrom(result + merged, k', cut, count) ==
                From(BucketsOf(data, k'), Max(cut, lo), count) - From(BucketsOf(data, k'), Max(cut, hi), count)
      {
        BucketsConcat(result, merged, k', cut, count);
        if k' == k {
          BucketsOfOthers(result, k', cut, count);
        } else {
          BucketsOfOthers(merged, k', cut, count);
        }
      }
    }
  }

  /** Moving the watermark to `hi` turns exactly the live part of [lo, hi) into emitted buckets. */
  lemma CollectConserves(accepted: seq<Event>, late: seq<Event>, emitted: seq<Bucket>, result: seq<Bucket>,
                         data: map<Key, seq<LiveBucket>>, lo: int, hi: int)
    requires Timed(accepted) && Timed(late) && Conserved(accepted, late, emitted, data, lo)
    requires Collected(result, data.Keys, data, lo, hi)
    ensures Conserved(accepted, late, emitted + result, data, hi)
  {
    forall k: Key, cut: int, count: bool | cut % MINUTE == 0
      ensures EventsFrom(accepted, k, cut, count) ==
              BucketsFrom(emitted + result, k, cut, count)
              + From(BucketsOf(data, k), Max(cut, hi), count) + EventsFrom(late, k, cut, count)
    {
      BucketsConcat(emitted, result, k, cut, count);
      if k in data {
        assert RollsUp(result, k, BucketsOf(data, k), lo, hi);
      } else {
        BucketsOfOthers(result, k, cut, count);
      }
    }
  }

  lemma CollectOnce(emitted: seq<Bucket>, result: seq<Bucket>, lo: int, hi: int, size: int)
    requires size > 0 && 0 <= lo <= hi && OnceBehind(emitted, lo, size)
    requires OnePerSlot(result) && SlotsIn(result, size, lo, hi)
    ensures OnceBehind(emitted + result, hi, size)
  {
  }

  // ------------------------------------------------------------------ one event

  lemma PushConserves(accepted: seq<Event>, late: seq<Event>, emitted: seq<Bucket>,
                      data: map<Key, seq<LiveBucket>>, data': map<Key, seq<LiveBucket>>, flushed: int, e: Event)
    requires Timed(accepted) && Timed(late) && e.ts >= 0.0 && Conserved(accepted, late, emitted, data, flushed)
    requires data' == data[e.key := Push(BucketsOf(data, e.key), e)]
    ensures Conserved(accepted + [e], if StartFor(e.ts) < flushed then late + [e] else late, emitted, data', flushed)
  {
    var late' := if StartFor(e.ts) < flushed then late + [e] else late;
    forall k: Key, cut: int, count: bool | cut % MINUTE == 0
      ensures EventsFrom(accepted + [e], k, cut, count) ==
              BucketsFrom(emitted, k, cut, count)
              + From(BucketsOf(data', k), Max(cut, flushed), count) + EventsFrom(late', k, cut, count)
    {
      EventsPush(accepted, e, k, cut, count);
      EventsPush(late, e, k, cut, count);
      PushFrom(BucketsOf(data, e.key), e, Max(cut, flushed), count);
    }
  }

  lemma PushFaithfulAt(accepted: seq<Event>, bs: seq<LiveBucket>, bs': seq<LiveBucket>, k: Key, cut: int, count: bool, e: Event)
    requires Timed(accepted) && e.ts >= 0.0 && From(bs, cut, count) == EventsFrom(accepted, k, cut, count)
    requires bs' == if k == e.key then Push(bs, e) else bs
    ensures From(bs', cut, count) == EventsFrom(accepted + [e], k, cut, count)
  {
    EventsPush(accepted, e, k, cut, count);
    if k == e.key {
      PushFrom(bs, e, cut, count);
    }
  }

  lemma PushFaithful(accepted: seq<Event>, data: map<Key, seq<LiveBucket>>, data': map<Key, seq<LiveBucket>>,
                     trimmed: int, e: Event)
    requires Timed(accepted) && e.ts >= 0.0 && Faithful(accepted, data, trimmed)
    requires data' == data[e.key := Push(BucketsOf(data, e.key), e)]
    ensures Faithful(accepted + [e], data', trimmed)
  {
    forall k: Key, cut: int, count: bool | trimmed <= cut
      ensures From(BucketsOf(data', k), cut, count) == EventsFrom(accepted + [e], k, cut, count)
    {
      PushFaithfulAt(accepted, BucketsOf(data, k), BucketsOf(data', k), k, cut, count, e);
    }
  }

  lemma StaysHeard(accepted: seq<Event>, e: Event, k: Key, start: int)
    requires Timed(accepted) && e.ts >= 0.0 && Heard(accepted, k, start)
    ensures Heard(accepted + [e], k, start)
  {
    var i :| 0 <= i < |accepted| && accepted[i].key == k && StartFor(accepted[i].ts) == start;
    assert (accepted + [e])[i] == accepted[i];
  }

  lemma WasInOrder(accepted: seq<Event>, e: Event, k: Key)
    requires Timed(accepted) && e.ts >= 0.0 && InOrder(accepted + [e], k)
    ensures InOrder(accepted, k)
    ensures forall start :: Heard(accepted, k, start) && e.key == k ==> start <= StartFor(e.ts)
  {
    var es := accepted + [e];
    assert forall i :: 0 <= i < |accepted| ==> es[i] == accepted[i];
    assert es[|accepted|] == e;
  }

  lemma PushOrderly(accepted: seq<Event>, e: Event, k: Key, bs: seq<LiveBucket>, bs': seq<LiveBucket>)
    requires Timed(accepted) && e.ts >= 0.0 && Orderly(accepted, k, bs)
    requires bs' == if k == e.key then Push(bs, e) else bs
    ensures Orderly(accepted + [e], k, bs')
  {
    var es := accepted + [e];
    assert es[|accepted|] == e;
    forall i | 0 <= i < |bs'| ensures Heard(es, k, bs'[i].start) {
      if i < |bs| && bs'[i].start == bs[i].start {
        StaysHeard(accepted, e, k, bs[i].start);
      }
    }
    if InOrder(es, k) {
      WasInOrder(accepted, e, k);
      if k == e.key {
        PushAscending(bs, e);
      }
    }
  }

  lemma PushChronological(accepted: seq<Event>, data: map<Key, seq<LiveBucket>>, data': map<Key, seq<LiveBucket>>, e: Event)
    requires Timed(accepted) && e.ts >= 0.0 && Chronological(accepted, data)
    requires data' == data[e.key := Push(BucketsOf(data, e.key), e)]
    ensures Chronological(accepted + [e], data')
  {
    forall k | k in data' ensures Orderly(accepted + [e], k, data'[k]) {
      assert Orderly(accepted, k, BucketsOf(data, k));
      PushOrderly(accepted, e, k, BucketsOf(data, k), data'[k]);
    }
  }

  // ------------------------------------------------------------------ trimming

  ghost predicate TrimmedTo(data: map<Key, seq<LiveBucket>>, data': map<Key, seq<LiveBucket>>, cutoff: int)
  {
    forall k: Key :: Shortened(BucketsOf(data, k), BucketsOf(data', k), cutoff)
  }

  lemma TrimConserves(accepted: seq<Event>, late: seq<Event>, emitted: seq<Bucket>,
                      data: map<Key, seq<LiveBucket>>, data': map<Key, seq<LiveBucket>>, flushed: int, cutoff: int)
    requires Timed(accepted) && Timed(late) && Conserved(accepted, late, emitted, data, flushed)
    requires TrimmedTo(data, data', cutoff) && cutoff <= flushed
    ensures Conserved(accepted, late, emitted, data', flushed)
  {
    forall k: Key, cut: int, count: bool | cut % MINUTE == 0
      ensures From(BucketsOf(data', k), Max(cut, flushed), count) == From(BucketsOf(data, k), Max(cut, flushed), count)
    {
      ShortenedFrom(BucketsOf(data, k), BucketsOf(data', k), cutoff, Max(cut, flushed), count);
    }
  }

  lemma TrimFaithful(accepted: seq<Event>, data: map<Key, seq<LiveBucket>>, data': map<Key, seq<LiveBucket>>,
                     trimmed: int, cutoff: int)
    requires Timed(accepted) && Faithful(accepted, data, trimmed) && TrimmedTo(data, data', cutoff)
    ensures Faithful(accepted, data', Max(trimmed, cutoff))
  {
    forall k: Key, cut: int, count: bool | Max(trimmed, cutoff) <= cut
      ensures From(BucketsOf(data', k), cut, count) == EventsFrom(accepted, k, cut, count)
    {
      ShortenedFrom(BucketsOf(data, k), BucketsOf(data', k), cutoff, cut, count);
    }
  }

  lemma SuffixAscends(bs: seq<LiveBucket>, rest: seq<LiveBucket>, cutoff: int)
    requires Shortened(bs, rest, cutoff)
    ensures forall i :: 0 <= i < |rest| ==> rest[i] == bs[i + |bs| - |rest|]
    ensures Ascending(bs) ==> Ascending(rest)
  {
  }

  lemma TrimChronological(accepted: seq<Event>, data: map<Key, seq<LiveBucket>>, data': map<Key, seq<LiveBucket>>, cutoff: int)
    requires Timed(accepted) && Chronological(accepted, data) && TrimmedTo(data, data', cutoff) && data'.Keys <= data.Keys
    ensures Chronological(accepted, data')
  {
    forall k | k in data' ensures Orderly(accepted, k, data'[k]) {
      SuffixAscends(BucketsOf(data, k), BucketsOf(data', k), cutoff);
    }
  }
}

/** Metric events, live buckets and minute buckets, and the sums the roll-up must conserve. */
module MetricsBuckets {
  import opened Prelude

  const LIVE_SECONDS: int := 5
  const MINUTE: int := 60
  const FIVE_MINUTES: int := 300
  const MAX_WINDOW: int := 60

  /** The metric key followed by its dimensions. */
  type Key = seq<string>

  datatype Agg = SumAgg | AvgAgg

  datatype Event = Event(key: Key, value: real, agg: Agg, n: Option<int>, ts: real)

  datatype LiveBucket = LiveBucket(start: int, value: real, n: Option<int>)

  datatype Bucket = Bucket(key: Key, start: int, seconds: int, value: real, n: Option<int>)

  type BucketId = (Key, int, int)

  function IdOf(b: Bucket): BucketId
  {
    (b.key, b.start, b.seconds)
  }

  function FloorTo(t: int, size: int): int
    requires t >= 0 && size > 0
  {
    t / size * size
  }

  /** Clock readings are never negative, so truncation is the floor. */
  function StartFor(ts: real): int
    requires ts >= 0.0
  {
    FloorTo(ts.Floor, LIVE_SECONDS)
  }

  function OrZero(n: Option<int>): int
  {
    if n.Some? then n.value else 0
  }

  /** Either the value or, with `count`, the denominator: both are rolled up the same way. */
  function Weight(value: real, n: Option<int>, count: bool): real
  {
    if count then OrZero(n) as real else value
  }

  function EventWeight(e: Event, count: bool): real
  {
    if count then (if e.agg.AvgAgg? then OrZero(e.n) else 0) as real else e.value
  }

  // ------------------------------------------------------------------ sums from a cut on

  function From(bs: seq<LiveBucket>, cut: int, count: bool): real
  {
    if bs == [] then 0.0
    else
      var last := bs[|bs| - 1];
      From(bs[..|bs| - 1], cut, count) + if cut <= last.start then Weight(last.value, last.n, count) else 0.0
  }

  /** The same sum over every event of a key in a history. */
  function EventsFrom(es: seq<Event>, k: Key, cut: int, count: bool): real
    requires forall i :: 0 <= i < |es| ==> es[i].ts >= 0.0
  {
    if es == [] then 0.0
    else
      var last := es[|es| - 1];
      EventsFrom(es[..|es| - 1], k, cut, count)
      + if last.key == k && cut <= StartFor(last.ts) then EventWeight(last, count) else 0.0
  }

  /** And over rolled-up buckets. */
  function BucketsFrom(bs: seq<Bucket>, k: Key, cut: int, count: bool): real
  {
    if bs == [] then 0.0
    else
      var last := bs[|bs| - 1];
      BucketsFrom(bs[..|bs| - 1], k, cut, count)
      + if last.key == k && cut <= last.start then Weight(last.value, last.n, count) else 0.0
  }

  lemma {:induction false} FromConcat(a: seq<LiveBucket>, b: seq<LiveBucket>, cut: int, count: bool)
    ensures From(a + b, cut, count) == From(a, cut, count) + From(b, cut, count)
  {
    if b == [] {
      assert a + b == a;
    } else {
      FromConcat(a, b[..|b| - 1], cut, count);
      assert (a + b)[..|a + b| - 1] == a + b[..|b| - 1];
    }
  }

  lemma {:induction false} FromBelow(bs: seq<LiveBucket>, cut: int, count: bool)
    requires forall i :: 0 <= i < |bs| ==> bs[i].start < cut
    ensures From(bs, cut, count) == 0.0
  {
    if bs != [] {
      FromBelow(bs[..|bs| - 1], cut, count);
    }
  }

  lemma FromSplitLast(bs: seq<LiveBucket>, b: LiveBucket, cut: int, count: bool)
    ensures From(bs + [b], cut, count) ==
            From(bs, cut, count) + if cut <= b.start then Weight(b.value, b.n, count) else 0.0
  {
    assert (bs + [b])[..|bs|] == bs;
  }

  lemma EventsPush(es: seq<Event>, e: Event, k: Key, cut: int, count: bool)
    requires (forall i :: 0 <= i < |es| ==> es[i].ts >= 0.0) && e.ts >= 0.0
    ensures EventsFrom(es + [e], k, cut, count) ==
            EventsFrom(es, k, cut, count) + if e.key == k && cut <= StartFor(e.ts) then EventWeight(e, count) else 0.0
  {
    assert (es + [e])[..|es|] == es;
  }

  lemma {:induction false} BucketsConcat(a: seq<Bucket>, b: seq<Bucket>, k: Key, cut: int, count: bool)
    ensures BucketsFrom(a + b, k, cut, count) == BucketsFrom(a, k, cut, count) + BucketsFrom(b, k, cut, count)
  {
    if b == [] {
      assert a + b == a;
    } else {
      BucketsConcat(a, b[..|b| - 1], k, cut, count);
      assert (a + b)[..|a + b| - 1] == a + b[..|b| - 1];
    }
  }

  lemma {:induction false} BucketsOfOthers(bs: seq<Bucket>, k: Key, cut: int, count: bool)
    requires forall i :: 0 <= i < |bs| ==> bs[i].key != k
    ensures BucketsFrom(bs, k, cut, count) == 0.0
  {
    if bs != [] {
      BucketsOfOthers(bs[..|bs| - 1], k, cut, count);
    }
  }

  /** What one bucket adds to the sums. */
  function Part(b: Bucket, k: Key, cut: int, count: bool): real
  {
    if b.key == k && cut <= b.start then Weight(b.value, b.n, count) else 0.0
  }

  /** Replacing one bucket moves every sum by the difference. */
  lemma BucketsUpdate(bs: seq<Bucket>, i: nat, b: Bucket, k: Key, cut: int, count: bool)
    requires i < |bs|
    ensures BucketsFrom(bs[i := b], k, cut, count) ==
            BucketsFrom(bs, k, cut, count) + Part(b, k, cut, count) - Part(bs[i], k, cut, count)
  {
    var x, y := bs[..i], bs[i + 1..];
    assert bs == x + [bs[i]] + y && bs[i := b] == x + [b] + y;
    BucketsConcat(x + [bs[i]], y, k, cut, count);
    BucketsConcat(x + [b], y, k, cut, count);
    assert (x + [bs[i]])[..i] == x && (x + [b])[..i] == x;
  }

  /** Whole minutes: a bucket's minute is at or after a minute boundary exactly when the bucket is. */
  lemma MinuteBoundary(start: int, m: int)
    requires start >= 0 && m % MINUTE == 0
    ensures m <= FloorTo(start, MINUTE) <==> m <= start
    ensures FloorTo(start, MINUTE) % MINUTE == 0 && FloorTo(start, MINUTE) <= start < FloorTo(start, MINUTE) + MINUTE
  {
  }

  // ------------------------------------------------------------------ one key's deque

  /** The event joins the newest bucket if it falls into it, else opens a new one. */
  function Push(bs: seq<LiveBucket>, e: Event): seq<LiveBucket>
    requires e.ts >= 0.0
  {
    var start := StartFor(e.ts);
    if bs != [] && bs[|bs| - 1].start == start then
      var b := bs[|bs| - 1];
      bs[..|bs| - 1] + [LiveBucket(start, b.value + e.value,
                                   if e.agg.AvgAgg? then Some(OrZero(b.n) + OrZero(e.n)) else b.n)]
    else
      bs + [LiveBucket(start, e.value, if e.agg.AvgAgg? then Some(OrZero(e.n)) else None)]
  }

  /** The event joins the newest bucket. */
  lemma JoinFrom(front: seq<LiveBucket>, b: LiveBucket, e: Event, b': LiveBucket, cut: int, count: bool)
    requires e.ts >= 0.0 && b.start == StartFor(e.ts)
    requires b' == LiveBucket(b.start, b.value + e.value, if e.agg.AvgAgg? then Some(OrZero(b.n) + OrZero(e.n)) else b.n)
    ensures From(front + [b'], cut, count) ==
            From(front + [b], cut, count) + if cut <= StartFor(e.ts) then EventWeight(e, count) else 0.0
  {
    FromSplitLast(front, b, cut, count);
    FromSplitLast(front, b', cut, count);
  }

  lemma PushFrom(bs: seq<LiveBucket>, e: Event, cut: int, count: bool)
    requires e.ts >= 0.0
    ensures From(Push(bs, e), cut, count) ==
            From(bs, cut, count) + if cut <= StartFor(e.ts) then EventWeight(e, count) else 0.0
  {
    var start := StartFor(e.ts);
    if bs != [] && bs[|bs| - 1].start == start {
      var front, b := bs[..|bs| - 1], bs[|bs| - 1];
      assert bs == front + [b];
      JoinFrom(front, b, e,
               LiveBucket(start, b.value + e.value, if e.agg.AvgAgg? then Some(OrZero(b.n) + OrZero(e.n)) else b.n), cut, count);
    } else {
      FromSplitLast(bs, LiveBucket(start, e.value, if e.agg.AvgAgg? then Some(OrZero(e.n)) else None), cut, count);
    }
  }

  predicate Ascending(bs: seq<LiveBucket>)
  {
    forall i, j :: 0 <= i < j < |bs| ==> bs[i].start < bs[j].start
  }

  lemma PushAscending(bs: seq<LiveBucket>, e: Event)
    requires Ascending(bs) && e.ts >= 0.0 && (bs != [] ==> bs[|bs| - 1].start <= StartFor(e.ts))
    ensures Ascending(Push(bs, e))
  {
  }

  /** Exactly the leading buckets before the cutoff are gone. */
  ghost predicate Shortened(bs: seq<LiveBucket>, rest: seq<LiveBucket>, cutoff: int)
  {
    && |rest| <= |bs| && rest == bs[|bs| - |rest|..]
    && (forall i :: 0 <= i < |bs| - |rest| ==> bs[i].start < cutoff)
    && (rest != [] ==> cutoff <= rest[0].start)
  }

  lemma ShortenedFrom(bs: seq<LiveBucket>, rest: seq<LiveBucket>, cutoff: int, cut: int, count: bool)
    requires Shortened(bs, rest, cutoff) && cutoff <= cut
    ensures From(rest, cut, count) == From(bs, cut, count)
  {
    var i := |bs| - |rest|;
    assert bs == bs[..i] + rest;
    FromConcat(bs[..i], rest, cut, count);
    FromBelow(bs[..i], cut, count);
  }

  /** Buckets leave from the front while they start before the cutoff. */
  method PopFront(bs: seq<LiveBucket>, cutoff: int) returns (rest: seq<LiveBucket>)
    ensures Shortened(bs, rest, cutoff)
  {
    var i := 0;
    while i < |bs| && bs[i].start < cutoff
      invariant 0 <= i <= |bs|
      invariant forall j :: 0 <= j < i ==> bs[j].start < cutoff
    {
      i := i + 1;
    }
    rest := bs[i..];
  }

  lemma FromSplitFirst(b: LiveBucket, bs: seq<LiveBucket>, cut: int, count: bool)
    ensures From([b] + bs, cut, count) == From(bs, cut, count) + if cut <= b.start then Weight(b.value, b.n, count) else 0.0
  {
    FromConcat([b], bs, cut, count);
    FromSplitLast([], b, cut, count);
    assert [] + [b] == [b];
  }

  /** In ascending buckets nothing before a bucket behind the cut counts. */
  lemma SuffixIsAll(bs: seq<LiveBucket>, i: nat, cut: int, count: bool)
    requires Ascending(bs) && i <= |bs| && (i > 0 ==> bs[i - 1].start < cut)
    ensures From(bs[i..], cut, count) == From(bs, cut, count)
  {
    assert bs == bs[..i] + bs[i..];
    FromConcat(bs[..i], bs[i..], cut, count);
    FromBelow(bs[..i], cut, count);
  }

  /** One window read from the newest bucket backwards, stopping at the first one before the cut. */
  method WindowTotal(bs: seq<LiveBucket>, cut: int) returns (total: real, n: int)
    ensures Ascending(bs) ==> total == From(bs, cut, false) && n as real == From(bs, cut, true)
  {
    total, n := 0.0, 0;
    var i := |bs|;
    while i > 0 && cut <= bs[i - 1].start
      invariant 0 <= i <= |bs|
      invariant total == From(bs[i..], cut, false) && n as real == From(bs[i..], cut, true)
    {
      i := i - 1;
      assert bs[i..] == [bs[i]] + bs[i + 1..];
      FromSplitFirst(bs[i], bs[i + 1..], cut, false);
      FromSplitFirst(bs[i], bs[i + 1..], cut, true);
      total := total + bs[i].value;
      n := n + OrZero(bs[i].n);
    }
    if Ascending(bs) {
      SuffixIsAll(bs, i, cut, false);
      SuffixIsAll(bs, i, cut, true);
    }
  }
}

/** Which keys are live, and under which aggregation: decided by the accepted events that were not trimmed. */
module MetricsKinds {
  import opened Prelude
  import opened MetricsBuckets
  import opened MetricsReport

  ghost predicate HasStart(bs: seq<LiveBucket>, start: int)
  {
    exists i :: 0 <= i < |bs| && bs[i].start == start
  }

  /** Some accepted event of the key and aggregation belongs to that bucket. */
  ghost predicate HasEvent(accepted: seq<Event>, k: Key, a: Agg, start: int)
    requires Timed(accepted)
  {
    exists i :: 0 <= i < |accepted| && accepted[i].key == k && accepted[i].agg == a && StartFor(accepted[i].ts) == start
  }

  /** The event's key is live under the event's aggregation, with the event's bucket. */
  ghost predicate Alive(agg: map<Key, Agg>, data: map<Key, seq<LiveBucket>>, e: Event)
    requires e.ts >= 0.0
  {
    Lookup(agg, e.key) == Some(e.agg) && HasStart(BucketsOf(data, e.key), StartFor(e.ts))
  }

  /** Every accepted event from the cut on is alive. */
  ghost predicate Present(accepted: seq<Event>, agg: map<Key, Agg>, data: map<Key, seq<LiveBucket>>, cut: int)
    requires Timed(accepted)
  {
    forall i :: 0 <= i < |accepted| && cut <= StartFor(accepted[i].ts) ==> Alive(agg, data, accepted[i])
  }

  /** Every live bucket has an accepted event of its key's aggregation. */
  ghost predicate Sourced(accepted: seq<Event>, agg: map<Key, Agg>, data: map<Key, seq<LiveBucket>>)
    requires Timed(accepted)
  {
    forall k :: k in data ==> k in agg && SourcedAs(accepted, k, agg[k], data[k])
  }

  ghost predicate SourcedAs(accepted: seq<Event>, k: Key, a: Agg, bs: seq<LiveBucket>)
    requires Timed(accepted)
  {
    forall start :: HasStart(bs, start) ==> HasEvent(accepted, k, a, start)
  }

  ghost predicate Kinds(accepted: seq<Event>, agg: map<Key, Agg>, data: map<Key, seq<LiveBucket>>, cut: int)
  {
    Timed(accepted) && Present(accepted, agg, data, cut) && Sourced(accepted, agg, data)
  }

  /** Every live key has an event from the cut on. */
  ghost predicate Backed(accepted: seq<Event>, agg: map<Key, Agg>, cut: int)
  {
    Timed(accepted) && forall k :: k in agg ==> BackedKey(accepted, k, agg[k], cut)
  }

  ghost predicate BackedKey(accepted: seq<Event>, k: Key, a: Agg, cut: int)
    requires Timed(accepted)
  {
    exists i :: 0 <= i < |accepted| && accepted[i].key == k && accepted[i].agg == a && cut <= StartFor(accepted[i].ts)
  }

  // ------------------------------------------------------------------ an event is counted

  lemma PushStarts(bs: seq<LiveBucket>, e: Event, start: int)
    requires e.ts >= 0.0
    ensures HasStart(Push(bs, e), start) <==> HasStart(bs, start) || start == StartFor(e.ts)
  {
    var bs' := Push(bs, e);
    assert bs'[|bs'| - 1].start == StartFor(e.ts);
    assert forall i :: 0 <= i < |bs| ==> bs'[i].start == bs[i].start;
  }

  lemma PushKinds(accepted: seq<Event>, agg: map<Key, Agg>, data: map<Key, seq<LiveBucket>>, cut: int, e: Event,
                  accepted': seq<Event>, agg': map<Key, Agg>, data': map<Key, seq<LiveBucket>>)
    requires Kinds(accepted, agg, data, cut) && e.ts >= 0.0 && (e.key in agg ==> agg[e.key] == e.agg)
    requires accepted' == accepted + [e] && agg' == agg[e.key := e.agg]
    requires data' == data[e.key := Push(BucketsOf(data, e.key), e)]
    ensures Kinds(accepted', agg', data', cut)
  {
    forall i | 0 <= i < |accepted'| && cut <= StartFor(accepted'[i].ts) ensures Alive(agg', data', accepted'[i]) {
      assert i < |accepted| ==> Alive(agg, data, accepted[i]);
      PushStarts(BucketsOf(data, e.key), e, StartFor(accepted'[i].ts));
    }
    PushSourced(accepted, agg, data, e, accepted', agg', data');
  }

  lemma PushSourced(accepted: seq<Event>, agg: map<Key, Agg>, data: map<Key, seq<LiveBucket>>, e: Event,
                    accepted': seq<Event>, agg': map<Key, Agg>, data': map<Key, seq<LiveBucket>>)
    requires Timed(accepted) && Sourced(accepted, agg, data) && e.ts >= 0.0 && (e.key in agg ==> agg[e.key] == e.agg)
    requires accepted' == accepted + [e] && agg' == agg[e.key := e.agg]
    requires data' == data[e.key := Push(BucketsOf(data, e.key), e)]
    ensures Timed(accepted') && Sourced(accepted', agg', data')
  {
    assert accepted'[|accepted|] == e;
    forall k | k in data' ensures SourcedAs(accepted', k, agg'[k], data'[k]) {
      forall start | HasStart(data'[k], start) ensures HasEvent(accepted', k, agg'[k], start) {
        PushStarts(BucketsOf(data, e.key), e, start);
        if k in data && HasStart(data[k], start) {
          StillHasEvent(accepted, e, k, agg[k], start);
        }
      }
    }
  }

  lemma StillHasEvent(accepted: seq<Event>, e: Event, k: Key, a: Agg, start: int)
    requires Timed(accepted) && e.ts >= 0.0 && HasEvent(accepted, k, a, start)
    ensures HasEvent(accepted + [e], k, a, start)
  {
    var i :| 0 <= i < |accepted| && accepted[i].key == k && accepted[i].agg == a && StartFor(accepted[i].ts) == start;
    assert (accepted + [e])[i] == accepted[i];
  }

  // ------------------------------------------------------------------ buckets are trimmed

  lemma ShortenedStarts(bs: seq<LiveBucket>, rest: seq<LiveBucket>, cutoff: int, start: int)
    requires Shortened(bs, rest, cutoff) && HasStart(bs, start) && cutoff <= start
    ensures HasStart(rest, start)
  {
    var i :| 0 <= i < |bs| && bs[i].start == start;
    assert rest[i - (|bs| - |rest|)] == bs[i];
  }

  lemma TrimKinds(accepted: seq<Event>, agg: map<Key, Agg>, data: map<Key, seq<LiveBucket>>, cut: int, cutoff: int,
                  agg': map<Key, Agg>, data': map<Key, seq<LiveBucket>>)
    requires Kinds(accepted, agg, data, cut) && TrimmedTo(data, data', cutoff)
    requires data'.Keys <= data.Keys && agg'.Keys == data'.Keys && forall k :: k in data' ==> k in agg && agg'[k] == agg[k]
    ensures Kinds(accepted, agg', data', Max(cut, cutoff))
  {
    forall i | 0 <= i < |accepted| && Max(cut, cutoff) <= StartFor(accepted[i].ts) ensures Alive(agg', data', accepted[i]) {
      var k := accepted[i].key;
      assert Alive(agg, data, accepted[i]);
      ShortenedStarts(BucketsOf(data, k), BucketsOf(data', k), cutoff, StartFor(accepted[i].ts));
    }
    forall k | k in data' ensures SourcedAs(accepted, k, agg'[k], data'[k]) {
      assert Shortened(BucketsOf(data, k), BucketsOf(data', k), cutoff);
      forall start | HasStart(data'[k], start) ensures HasStart(data[k], start) {
        var i :| 0 <= i < |data'[k]| && data'[k][i].start == start;
        assert data[k][|data[k]| - |data'[k]| + i] == data'[k][i];
      }
    }
  }

  /** Trimming leaves only keys with an event from the cut on. */
  lemma TrimBacks(accepted: seq<Event>, agg: map<Key, Agg>, data: map<Key, seq<LiveBucket>>, cutoff: int)
    requires Timed(accepted) && Sourced(accepted, agg, data) && agg.Keys == data.Keys
    requires forall k :: k in data ==> data[k] != [] && cutoff <= data[k][0].start
    ensures Backed(accepted, agg, cutoff)
  {
    forall k | k in agg ensures BackedKey(accepted, k, agg[k], cutoff) {
      assert HasStart(data[k], data[k][0].start);
    }
  }

  // ------------------------------------------------------------------ which events are accepted

  /** Some event of the history has the key under another aggregation. */
  ghost predicate Conflicts(history: seq<Event>, e: Event)
  {
    exists i :: 0 <= i < |history| && history[i].key == e.key && history[i].agg != e.agg
  }

  /** One of this turn's events, or an earlier one from the cut on, has the key under another aggregation. */
  ghost predicate LiveConflict(before: seq<Event>, cut: int, added: seq<Event>, e: Event)
    requires Timed(before)
  {
    || Conflicts(added, e)
    || exists i :: 0 <= i < |before| && cut <= StartFor(before[i].ts) && before[i].key == e.key && before[i].agg != e.agg
  }

  /**
    Each event of a turn is accepted or left out.  One that conflicts with a live event is left out.  One
    that is left out conflicts with a live event, if `steady`, and with the history in any case.
    */
  ghost predicate Accepts(before: seq<Event>, cut: int, steady: bool, events: seq<Event>, added: seq<Event>)
    requires Timed(before)
  {
    if events == [] then added == []
    else
      var n := |events| - 1;
      || (&& added != [] && added[|added| - 1] == events[n]
          && Accepts(before, cut, steady, events[..n], added[..|added| - 1])
          && !LiveConflict(before, cut, added[..|added| - 1], events[n]))
      || (&& Accepts(before, cut, steady, events[..n], added) && Conflicts(before + added, events[n])
          && (steady ==> LiveConflict(before, cut, added, events[n])))
  }

  /** With a steady cut, what a turn accepts is determined by the history, the cut and the events. */
  lemma {:induction false} AcceptsUnique(before: seq<Event>, cut: int, events: seq<Event>, a: seq<Event>, b: seq<Event>)
    requires Timed(before) && Accepts(before, cut, true, events, a) && Accepts(before, cut, true, events, b)
    ensures a == b
    decreases |events|
  {
    if events != [] {
      var n := |events| - 1;
      var a' := LastAccepted(before, cut, events, a);
      var b' := LastAccepted(before, cut, events, b);
      AcceptsUnique(before, cut, events[..n], a', b');
    }
  }

  /** What was accepted before the last event; it is accepted iff it conflicts with no live event. */
  lemma LastAccepted(before: seq<Event>, cut: int, events: seq<Event>, added: seq<Event>) returns (front: seq<Event>)
    requires Timed(before) && events != [] && Accepts(before, cut, true, events, added)
    ensures Accepts(before, cut, true, events[..|events| - 1], front)
    ensures added == if LiveConflict(before, cut, front, events[|events| - 1]) then front else front + [events[|events| - 1]]
  {
    var n := |events| - 1;
    if added != [] && added[|added| - 1] == events[n] && Accepts(before, cut, true, events[..n], added[..|added| - 1])
       && !LiveConflict(before, cut, added[..|added| - 1], events[n]) {
      front := added[..|added| - 1];
      assert added == front + [events[n]];
    } else {
      front := added;
    }
  }

  /** What the live keys are while a turn drains its events. */
  ghost predicate Draining(before: seq<Event>, cut: int, steady: bool, added: seq<Event>, agg: map<Key, Agg>)
    requires Timed(before)
  {
    && (forall i :: 0 <= i < |added| ==> Lookup(agg, added[i].key) == Some(added[i].agg))
    && (forall i :: 0 <= i < |before| && cut <= StartFor(before[i].ts) ==> Lookup(agg, before[i].key) == Some(before[i].agg))
    && (forall k :: k in agg ==> KnownAs(before + added, k, agg[k]))
    && (steady ==> forall k :: k in agg ==> KnownAs(added, k, agg[k]) || BackedKey(before, k, agg[k], cut))
  }

  ghost predicate KnownAs(history: seq<Event>, k: Key, a: Agg)
  {
    exists i :: 0 <= i < |history| && history[i].key == k && history[i].agg == a
  }

  lemma DrainLeavesOut(before: seq<Event>, cut: int, steady: bool, added: seq<Event>, agg: map<Key, Agg>, e: Event)
    requires Timed(before) && Draining(before, cut, steady, added, agg)
    ensures LiveConflict(before, cut, added, e) ==> e.key in agg && agg[e.key] != e.agg
    ensures e.key in agg && agg[e.key] != e.agg ==> Conflicts(before + added, e)
    ensures e.key in agg && agg[e.key] != e.agg && steady ==> LiveConflict(before, cut, added, e)
  {
    if e.key in agg && agg[e.key] != e.agg {
      assert KnownAs(before + added, e.key, agg[e.key]);
    }
  }

  lemma KnownMore(history: seq<Event>, e: Event, k: Key, a: Agg)
    requires KnownAs(history, k, a)
    ensures KnownAs(history + [e], k, a)
  {
    var i :| 0 <= i < |history| && history[i].key == k && history[i].agg == a;
    assert (history + [e])[i] == history[i];
  }

  lemma DrainCounts(before: seq<Event>, cut: int, steady: bool, added: seq<Event>, agg: map<Key, Agg>, e: Event)
    requires Timed(before) && Draining(before, cut, steady, added, agg) && (e.key in agg ==> agg[e.key] == e.agg)
    ensures Draining(before, cut, steady, added + [e], agg[e.key := e.agg])
  {
    var agg' := agg[e.key := e.agg];
    assert before + (added + [e]) == before + added + [e];
    assert (added + [e])[|added|] == e && (before + added + [e])[|before + added|] == e;
    assert KnownAs(added + [e], e.key, e.agg) && KnownAs(before + added + [e], e.key, e.agg);
    forall k | k in agg ensures KnownAs(before + added + [e], k, agg[k]) {
      KnownMore(before + added, e, k, agg[k]);
    }
    forall k | k in agg && KnownAs(added, k, agg[k]) ensures KnownAs(added + [e], k, agg[k]) {
      KnownMore(added, e, k, agg[k]);
    }
  }

  lemma AcceptsOne(before: seq<Event>, cut: int, steady: bool, events: seq<Event>, added: seq<Event>, e: Event, agg: map<Key, Agg>)
    requires Timed(before) && Accepts(before, cut, steady, events, added) && Draining(before, cut, steady, added, agg)
    ensures Accepts(before, cut, steady, events + [e], if e.key in agg && agg[e.key] != e.agg then added else added + [e])
  {
    assert (events + [e])[..|events|] == events;
    assert (added + [e])[..|added|] == added;
    DrainLeavesOut(before, cut, steady, added, agg, e);
  }

  /** At the start of a turn nothing is added yet. */
  lemma DrainBegins(accepted: seq<Event>, agg: map<Key, Agg>, data: map<Key, seq<LiveBucket>>, cut: int, steady: bool)
    requires Kinds(accepted, agg, data, cut) && (steady ==> Backed(accepted, agg, cut))
    requires forall k :: k in agg ==> KnownAs(accepted, k, agg[k])
    ensures Draining(accepted, cut, steady, [], agg)
  {
    assert accepted + [] == accepted;
    forall i | 0 <= i < |accepted| && cut <= StartFor(accepted[i].ts) ensures Lookup(agg, accepted[i].key) == Some(accepted[i].agg) {
      assert Alive(agg, data, accepted[i]);
    }
  }
}

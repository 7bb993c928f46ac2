/** Whole runs of the report loop, from an empty state. */
module MetricsRun {
  import opened Prelude
  import opened MetricsBuckets
  import opened MetricsReport
  import opened MetricsKinds
  import opened MetricsState
  import opened MetricsFive
  import opened MetricsFlush

  /**
   * What one turn finds: the waiting events, the clock, the clock again when the finished minutes are
   * handed over, and the steps of flush tasks until the next turn.
   */
  datatype Tick = Tick(events: seq<Event>, now: real, later: real, flushes: seq<FlushEvent>)

  ghost predicate Sensible(ticks: seq<Tick>)
  {
    forall i :: 0 <= i < |ticks| ==> Timed(ticks[i].events) && ticks[i].now >= 0.0 && ticks[i].later >= 0.0
  }

  function AllEvents(ticks: seq<Tick>): seq<Event>
  {
    if ticks == [] then [] else AllEvents(ticks[..|ticks| - 1]) + ticks[|ticks| - 1].events
  }

  ghost predicate ClockRises(ticks: seq<Tick>)
  {
    forall i, j :: 0 <= i < j < |ticks| ==> ticks[i].now <= ticks[j].now
  }

  /** The watermark is the latest minute any turn has seen. */
  ghost function Watermark(ticks: seq<Tick>): int
    requires Sensible(ticks)
  {
    if ticks == [] then 0 else Max(Watermark(ticks[..|ticks| - 1]), FloorTo(ticks[|ticks| - 1].now.Floor, MINUTE))
  }

  /** Up to where live buckets have been trimmed: behind the watermark and every window of some turn. */
  ghost function TrimmedBy(ticks: seq<Tick>): int
    requires Sensible(ticks)
  {
    if ticks == [] then WindowCut(0.0, MAX_WINDOW) else Max(TrimmedBy(ticks[..|ticks| - 1]), Cutoff(ticks))
  }

  /** Where the last turn trims. */
  ghost function Cutoff(ticks: seq<Tick>): int
    requires Sensible(ticks) && ticks != []
  {
    Min(WindowCut(ticks[|ticks| - 1].now, MAX_WINDOW), Watermark(ticks))
  }

  lemma {:induction false} CutoffsRise(ticks: seq<Tick>, i: nat)
    requires Sensible(ticks) && ClockRises(ticks) && i < |ticks|
    ensures TrimmedBy(ticks[..i]) <= Cutoff(ticks[..i + 1])
  {
    var front := ticks[..i];
    assert ticks[..i + 1][..i] == front;
    WatermarkFrom(ticks[..i + 1]);
    if i == 0 {
      CutsRise(0.0, ticks[0].now, MAX_WINDOW);
    } else {
      CutoffsRise(ticks, i - 1);
      assert front[..i - 1] == ticks[..i - 1] && ticks[..i - 1 + 1] == front;
      CutsRise(ticks[i - 1].now, ticks[i].now, MAX_WINDOW);
    }
  }

  lemma {:induction false} WatermarkFrom(ticks: seq<Tick>)
    requires Sensible(ticks)
    ensures Watermark(ticks) >= 0
  {
    if ticks != [] {
      WatermarkFrom(ticks[..|ticks| - 1]);
    }
  }

  // ------------------------------------------------------------------ histories

  function Flat(parts: seq<seq<Event>>): seq<Event>
  {
    if parts == [] then [] else Flat(parts[..|parts| - 1]) + parts[|parts| - 1]
  }

  lemma FlatPush(parts: seq<seq<Event>>, part: seq<Event>)
    ensures Flat(parts + [part]) == Flat(parts) + part
  {
    assert (parts + [part])[..|parts|] == parts;
  }

  /** `parts[i]` is what turn `i` accepted. */
  ghost predicate AcceptedBy(parts: seq<seq<Event>>, ticks: seq<Tick>)
  {
    Sensible(ticks) &&
    (parts == [] ||
     (var n := |parts| - 1;
      && n < |ticks| && AcceptedBy(parts[..n], ticks) && Timed(parts[n]) && Timed(Flat(parts[..n]))
      && Accepts(Flat(parts[..n]), TrimmedBy(ticks[..n]), ClockRises(ticks), ticks[n].events, parts[n])))
  }

  /** With a clock that does not step back, the ticks decide what every turn accepts. */
  lemma {:induction false} AcceptedUnique(a: seq<seq<Event>>, b: seq<seq<Event>>, ticks: seq<Tick>)
    requires AcceptedBy(a, ticks) && AcceptedBy(b, ticks) && |a| == |b| && ClockRises(ticks)
    ensures a == b
  {
    if a != [] {
      var n := |a| - 1;
      AcceptedUnique(a[..n], b[..n], ticks);
      AcceptsUnique(Flat(a[..n]), TrimmedBy(ticks[..n]), ticks[n].events, a[n], b[n]);
      assert a == a[..n] + [a[n]] && b == b[..n] + [b[n]];
    }
  }

  /** The accepted events that were behind the watermark their turn found. */
  ghost function LateIn(parts: seq<seq<Event>>, ticks: seq<Tick>): seq<Event>
    requires Sensible(ticks) && AcceptedBy(parts, ticks)
  {
    if parts == [] then []
    else
      var n := |parts| - 1;
      LateIn(parts[..n], ticks) + Behind(parts[n], Watermark(ticks[..n]))
  }

  lemma AcceptedPush(parts: seq<seq<Event>>, ticks: seq<Tick>, part: seq<Event>)
    requires Sensible(ticks) && AcceptedBy(parts, ticks) && |parts| < |ticks|
    requires Timed(part) && Timed(Flat(parts))
    requires Accepts(Flat(parts), TrimmedBy(ticks[..|parts|]), ClockRises(ticks), ticks[|parts|].events, part)
    ensures AcceptedBy(parts + [part], ticks)
    ensures LateIn(parts + [part], ticks) == LateIn(parts, ticks) + Behind(part, Watermark(ticks[..|parts|]))
  {
    assert (parts + [part])[..|parts|] == parts;
  }

  /** No event lies behind the watermark its turn finds. */
  ghost predicate OnTime(ticks: seq<Tick>)
    requires Sensible(ticks)
  {
    forall i, e :: 0 <= i < |ticks| && e in ticks[i].events && e.ts >= 0.0 ==> Watermark(ticks[..i]) <= StartFor(e.ts)
  }

  lemma {:induction false} AcceptsOnly(before: seq<Event>, cut: int, steady: bool, events: seq<Event>, added: seq<Event>)
    requires Timed(before) && Accepts(before, cut, steady, events, added)
    ensures forall e :: e in added ==> e in events
    decreases |events|
  {
    if events != [] {
      var n := |events| - 1;
      assert events == events[..n] + [events[n]];
      if added != [] && added[|added| - 1] == events[n] && Accepts(before, cut, steady, events[..n], added[..|added| - 1]) {
        AcceptsOnly(before, cut, steady, events[..n], added[..|added| - 1]);
      } else {
        AcceptsOnly(before, cut, steady, events[..n], added);
      }
    }
  }

  lemma {:induction false} NoneBehind(es: seq<Event>, mark: int)
    requires Timed(es) && forall e :: e in es && e.ts >= 0.0 ==> mark <= StartFor(e.ts)
    ensures Behind(es, mark) == []
  {
    if es != [] {
      assert es[|es| - 1] in es;
      NoneBehind(es[..|es| - 1], mark);
    }
  }

  /** Events that arrive in time are never late. */
  lemma {:induction false} OnTimeNoneLate(parts: seq<seq<Event>>, ticks: seq<Tick>)
    requires Sensible(ticks) && AcceptedBy(parts, ticks) && OnTime(ticks)
    ensures LateIn(parts, ticks) == []
  {
    if parts != [] {
      var n := |parts| - 1;
      OnTimeNoneLate(parts[..n], ticks);
      AcceptsOnly(Flat(parts[..n]), TrimmedBy(ticks[..n]), ClockRises(ticks), ticks[n].events, parts[n]);
      NoneBehind(parts[n], Watermark(ticks[..n]));
    }
  }

  // ------------------------------------------------------------------ runs without a conflict of aggregations

  /** No key is ever recorded under two aggregations. */
  ghost predicate Uniform(es: seq<Event>)
  {
    forall i, j :: 0 <= i < j < |es| && es[i].key == es[j].key ==> es[i].agg == es[j].agg
  }

  lemma NoConflict(history: seq<Event>, e: Event)
    requires Uniform(history + [e])
    ensures !Conflicts(history, e)
  {
    var all := history + [e];
    assert all[|history|] == e;
    assert forall i :: 0 <= i < |history| ==> all[i] == history[i];
  }

  lemma UniformFront(es: seq<Event>, n: nat)
    requires Uniform(es) && n <= |es|
    ensures Uniform(es[..n])
  {
  }

  lemma UniformSplit(before: seq<Event>, events: seq<Event>)
    requires events != [] && Uniform(before + events)
    ensures Uniform(before + events[..|events| - 1])
    ensures Uniform(before + events[..|events| - 1] + [events[|events| - 1]])
  {
    var n := |events| - 1;
    assert before + events == (before + events[..n]) + [events[n]];
    UniformFront(before + events, |before| + n);
    assert (before + events)[..|before| + n] == before + events[..n];
  }

  /** Without a conflict of aggregations every event is accepted. */
  lemma {:induction false} UniformAccepted(before: seq<Event>, cut: int, steady: bool, events: seq<Event>, added: seq<Event>)
    requires Timed(before) && Accepts(before, cut, steady, events, added) && Uniform(before + events)
    ensures added == events
    decreases |events|
  {
    if events != [] {
      var n := |events| - 1;
      UniformSplit(before, events);
      if added != [] && added[|added| - 1] == events[n] && Accepts(before, cut, steady, events[..n], added[..|added| - 1]) {
        UniformAccepted(before, cut, steady, events[..n], added[..|added| - 1]);
        assert added == added[..|added| - 1] + [events[n]] && events == events[..n] + [events[n]];
      } else {
        UniformAccepted(before, cut, steady, events[..n], added);
        NoConflict(before + events[..n], events[n]);
      }
    }
  }

  lemma AllEventsPush(ticks: seq<Tick>, i: nat)
    requires i < |ticks|
    ensures AllEvents(ticks[..i + 1]) == AllEvents(ticks[..i]) + ticks[i].events
  {
    assert ticks[..i + 1][..i] == ticks[..i];
  }

  lemma {:induction false} UniformPrefix(ticks: seq<Tick>, n: nat)
    requires n <= |ticks| && Uniform(AllEvents(ticks))
    ensures Uniform(AllEvents(ticks[..n]))
    decreases |ticks|
  {
    if n < |ticks| {
      var es := AllEvents(ticks[..|ticks| - 1]);
      assert forall i :: 0 <= i < |es| ==> AllEvents(ticks)[i] == es[i];
      assert ticks[..|ticks| - 1][..n] == ticks[..n];
      UniformPrefix(ticks[..|ticks| - 1], n);
    } else {
      assert ticks[..n] == ticks;
    }
  }

  /** Then the history of every turn is everything that came up to it. */
  lemma {:induction false} UniformHistory(parts: seq<seq<Event>>, ticks: seq<Tick>)
    requires AcceptedBy(parts, ticks) && |parts| <= |ticks| && Uniform(AllEvents(ticks))
    ensures Flat(parts) == AllEvents(ticks[..|parts|])
  {
    if parts != [] {
      var n := |parts| - 1;
      UniformHistory(parts[..n], ticks);
      AllEventsPush(ticks, n);
      UniformPrefix(ticks, n + 1);
      UniformAccepted(Flat(parts[..n]), TrimmedBy(ticks[..n]), ClockRises(ticks), ticks[n].events, parts[n]);
    }
  }

  // ------------------------------------------------------------------ snapshots

  /** A published snapshot equals plain sums over a history. */
  ghost predicate SnapshotOf(snap: map<Key, Totals>, history: seq<Event>, now: real)
  {
    Timed(history) && now >= 0.0 &&
    exists agg: map<Key, Agg> :: agg.Keys == snap.Keys && Typed(history, agg) && Exact(snap, agg, history, now)
  }

  ghost predicate AllExact(snaps: seq<map<Key, Totals>>, parts: seq<seq<Event>>, ticks: seq<Tick>)
  {
    |snaps| == |parts| <= |ticks| &&
    forall i :: 0 <= i < |snaps| ==> SnapshotOf(snaps[i], Flat(parts[..i + 1]), ticks[i].now)
  }

  lemma ExactPush(snaps: seq<map<Key, Totals>>, parts: seq<seq<Event>>, ticks: seq<Tick>, snap: map<Key, Totals>, part: seq<Event>)
    requires AllExact(snaps, parts, ticks) && |snaps| < |ticks| && SnapshotOf(snap, Flat(parts + [part]), ticks[|snaps|].now)
    ensures AllExact(snaps + [snap], parts + [part], ticks)
  {
    var all := parts + [part];
    forall i | 0 <= i < |all| ensures SnapshotOf((snaps + [snap])[i], Flat(all[..i + 1]), ticks[i].now) {
      assert all[..i + 1] == if i < |parts| then parts[..i + 1] else all;
    }
  }

  // ------------------------------------------------------------------ the contents of a minute

  lemma {:induction false} OneMinute(emitted: seq<Bucket>, flushed: int, i: nat, count: bool)
    requires OnceBehind(emitted, flushed, MINUTE) && i < |emitted|
    ensures var b := emitted[i];
            BucketsFrom(emitted, b.key, b.start, count) - BucketsFrom(emitted, b.key, b.start + MINUTE, count) ==
            Weight(b.value, b.n, count)
    decreases |emitted|
  {
    var n := |emitted| - 1;
    var b := emitted[i];
    if i == n {
      OtherMinutes(emitted[..n], b, flushed, count);
    } else {
      OneMinute(emitted[..n], flushed, i, count);
      assert IdOf(emitted[i]) != IdOf(emitted[n]);
    }
  }

  lemma {:induction false} OtherMinutes(others: seq<Bucket>, b: Bucket, flushed: int, count: bool)
    requires OnceBehind(others, flushed, MINUTE) && b.seconds == MINUTE && b.start % MINUTE == 0
    requires forall j :: 0 <= j < |others| ==> IdOf(others[j]) != IdOf(b)
    ensures BucketsFrom(others, b.key, b.start, count) == BucketsFrom(others, b.key, b.start + MINUTE, count)
  {
    if others != [] {
      var n := |others| - 1;
      OtherMinutes(others[..n], b, flushed, count);
      assert others[n].key == b.key ==> others[n].start != b.start;
    }
  }

  /** What the events of one key and one minute add up to. */
  ghost function InMinute(es: seq<Event>, k: Key, start: int, count: bool): real
    requires Timed(es)
  {
    EventsFrom(es, k, start, count) - EventsFrom(es, k, start + MINUTE, count)
  }

  /** Each emitted minute bucket holds exactly the accepted events of its key and minute that were not late. */
  lemma MinuteContents(data: map<Key, seq<LiveBucket>>, flushed: int, accepted: seq<Event>, late: seq<Event>,
                       emitted: seq<Bucket>, b: Bucket, count: bool)
    requires Balanced(data, flushed, accepted, late, emitted) && b in emitted
    ensures Weight(b.value, b.n, count) == InMinute(accepted, b.key, b.start, count) - InMinute(late, b.key, b.start, count)
  {
    var i :| 0 <= i < |emitted| && emitted[i] == b;
    OneMinute(emitted, flushed, i, count);
    MinuteBehind(b.start, flushed);
    ConservedAt(accepted, late, emitted, data, flushed, b.key, b.start, count);
    ConservedAt(accepted, late, emitted, data, flushed, b.key, b.start + MINUTE, count);
  }

  /** And a minute whose events do not cancel out is emitted once the watermark has passed it. */
  lemma MinuteIsEmitted(data: map<Key, seq<LiveBucket>>, flushed: int, accepted: seq<Event>, late: seq<Event>,
                        emitted: seq<Bucket>, k: Key, start: int, count: bool)
    requires Balanced(data, flushed, accepted, late, emitted) && start % MINUTE == 0 && start < flushed
    requires InMinute(accepted, k, start, count) != InMinute(late, k, start, count)
    ensures exists b :: b in emitted && b.key == k && b.start == start
  {
    var b := Bucket(k, start, MINUTE, 0.0, None);
    MinuteBehind(start, flushed);
    ConservedAt(accepted, late, emitted, data, flushed, k, start, count);
    ConservedAt(accepted, late, emitted, data, flushed, k, start + MINUTE, count);
    if forall j :: 0 <= j < |emitted| ==> IdOf(emitted[j]) != IdOf(b) {
      OtherMinutes(emitted, b, flushed, count);
    }
  }

  lemma MinuteBehind(start: int, flushed: int)
    requires start % MINUTE == 0 && flushed % MINUTE == 0 && start < flushed
    ensures start + MINUTE <= flushed && (start + MINUTE) % MINUTE == 0
  {
  }

  lemma ConservedAt(accepted: seq<Event>, late: seq<Event>, emitted: seq<Bucket>, data: map<Key, seq<LiveBucket>>, flushed: int,
                    k: Key, cut: int, count: bool)
    requires Timed(accepted) && Timed(late) && Conserved(accepted, late, emitted, data, flushed)
    requires cut % MINUTE == 0 && cut <= flushed
    ensures EventsFrom(accepted, k, cut, count) ==
            BucketsFrom(emitted, k, cut, count) + From(BucketsOf(data, k), flushed, count) + EventsFrom(late, k, cut, count)
  {
  }

  // ------------------------------------------------------------------ the loop

  /** What the report state knows of the turns so far. */
  ghost predicate Recorded(ticks: seq<Tick>, parts: seq<seq<Event>>, flushed: int, trimmed: int, accepted: seq<Event>, late: seq<Event>)
    requires Sensible(ticks) && |parts| <= |ticks|
  {
    && AcceptedBy(parts, ticks) && flushed == Watermark(ticks[..|parts|]) && trimmed == TrimmedBy(ticks[..|parts|])
    && accepted == Flat(parts) && late == LateIn(parts, ticks)
  }

  /** What holds besides if the clock does not step back. */
  ghost predicate Steady(ticks: seq<Tick>, snaps: seq<map<Key, Totals>>, parts: seq<seq<Event>>, agg: map<Key, Agg>,
                         trimmed: int, accepted: seq<Event>, clock: real)
    requires |parts| <= |ticks|
  {
    && Backed(accepted, agg, trimmed) && AllExact(snaps, parts, ticks)
    && (clock == 0.0 || (|parts| > 0 && clock <= ticks[|parts| - 1].now))
  }

  /** The report state between turns. */
  ghost predicate Reporting(state: ReportState, ticks: seq<Tick>, snaps: seq<map<Key, Totals>>, minutes: seq<Bucket>,
                            parts: seq<seq<Event>>)
    requires Sensible(ticks) && |parts| <= |ticks|
    reads state
  {
    && state.Valid() && state.emitted == minutes && |snaps| == |parts|
    && Recorded(ticks, parts, state.flushed, state.trimmed, state.accepted, state.late)
    && (ClockRises(ticks) ==> Steady(ticks, snaps, parts, state.agg, state.trimmed, state.accepted, state.clock))
  }

  lemma MarksPush(ticks: seq<Tick>, i: nat)
    requires Sensible(ticks) && i < |ticks|
    ensures Watermark(ticks[..i + 1]) == Max(Watermark(ticks[..i]), FloorTo(ticks[i].now.Floor, MINUTE))
    ensures Cutoff(ticks[..i + 1]) == Min(WindowCut(ticks[i].now, MAX_WINDOW), Watermark(ticks[..i + 1]))
    ensures TrimmedBy(ticks[..i + 1]) == Max(TrimmedBy(ticks[..i]), Cutoff(ticks[..i + 1]))
  {
    assert ticks[..i + 1][..i] == ticks[..i] && ticks[..i + 1][i] == ticks[i];
  }

  lemma SnapshotIs(snap: map<Key, Totals>, agg: map<Key, Agg>, history: seq<Event>, now: real)
    requires Timed(history) && now >= 0.0 && agg.Keys == snap.Keys && Typed(history, agg) && Exact(snap, agg, history, now)
    ensures SnapshotOf(snap, history, now)
  {
  }

  lemma RecordedPush(ticks: seq<Tick>, parts: seq<seq<Event>>, flushed: int, trimmed: int, accepted: seq<Event>, late: seq<Event>,
                     part: seq<Event>, flushed': int, trimmed': int, accepted': seq<Event>, late': seq<Event>)
    requires Sensible(ticks) && |parts| < |ticks| && Recorded(ticks, parts, flushed, trimmed, accepted, late)
    requires Timed(accepted) && Tallied(accepted, late, part, accepted', late', flushed)
    requires Accepts(accepted, trimmed, ClockRises(ticks), ticks[|parts|].events, part)
    requires flushed' == Max(flushed, FloorTo(ticks[|parts|].now.Floor, MINUTE))
    requires trimmed' == Max(trimmed, Min(WindowCut(ticks[|parts|].now, MAX_WINDOW), flushed'))
    ensures Recorded(ticks, parts + [part], flushed', trimmed', accepted', late')
  {
    AcceptedPush(parts, ticks, part);
    FlatPush(parts, part);
    MarksPush(ticks, |parts|);
  }

  lemma SteadyPush(ticks: seq<Tick>, snaps: seq<map<Key, Totals>>, parts: seq<seq<Event>>, agg: map<Key, Agg>,
                   trimmed: int, accepted: seq<Event>, clock: real, snap: map<Key, Totals>, part: seq<Event>, kinds: map<Key, Agg>,
                   agg': map<Key, Agg>, trimmed': int, accepted': seq<Event>, clock': real)
    requires Sensible(ticks) && ClockRises(ticks) && |parts| < |ticks| && Steady(ticks, snaps, parts, agg, trimmed, accepted, clock)
    requires trimmed == TrimmedBy(ticks[..|parts|]) && Timed(accepted') && accepted' == Flat(parts + [part])
    requires var now := ticks[|parts|].now;
             && (trimmed <= Cutoff(ticks[..|parts| + 1]) ==> Backed(accepted', agg', trimmed'))
             && snap.Keys == kinds.Keys && Typed(accepted', kinds)
             && (clock <= now ==> Exact(snap, kinds, accepted', now) && clock' == now)
    ensures Steady(ticks, snaps + [snap], parts + [part], agg', trimmed', accepted', clock')
  {
    CutoffsRise(ticks, |parts|);
    SnapshotIs(snap, kinds, accepted', ticks[|parts|].now);
    ExactPush(snaps, parts, ticks, snap, part);
  }

  /** One turn of the report state. */
  method TakeTurn(state: ReportState, ticks: seq<Tick>, ghost snaps: seq<map<Key, Totals>>, ghost minutes: seq<Bucket>,
                  ghost parts: seq<seq<Event>>, i: nat)
    returns (snap: map<Key, Totals>, completed: seq<Bucket>, ghost part: seq<Event>)
    requires Sensible(ticks) && i == |parts| < |ticks| && Reporting(state, ticks, snaps, minutes, parts)
    modifies state
    ensures Reporting(state, ticks, snaps + [snap], minutes + completed, parts + [part])
    ensures OnePerSlot(completed) && SlotsIn(completed, MINUTE, Watermark(ticks[..i]), Watermark(ticks[..i + 1]))
  {
    ghost var kinds;
    snap, completed, part, kinds := state.DrainAndProcess(ticks[i].events, true, ticks[i].now, ClockRises(ticks));
    RecordedPush(ticks, parts, old(state.flushed), old(state.trimmed), old(state.accepted), old(state.late),
                 part, state.flushed, state.trimmed, state.accepted, state.late);
    MarksPush(ticks, i);
    if ClockRises(ticks) {
      SteadyPush(ticks, snaps, parts, old(state.agg), old(state.trimmed), old(state.accepted), old(state.clock),
                 snap, part, kinds, state.agg, state.trimmed, state.accepted, state.clock);
    }
  }

  /** The minutes turn by turn: each was handed over by the turn that moved the watermark past it. */
  ghost predicate HandedOver(handed: seq<Handed>, ticks: seq<Tick>, minutes: seq<Bucket>)
    requires Sensible(ticks)
  {
    && |handed| <= |ticks| && Sound(handed) && AllMinutes(handed) == minutes
    && forall i :: 0 <= i < |handed| ==>
         && handed[i].now == ticks[i].later
         && SlotsIn(handed[i].minutes, MINUTE, Watermark(ticks[..i]), Watermark(ticks[..i + 1]))
  }

  lemma HandedPush(handed: seq<Handed>, ticks: seq<Tick>, minutes: seq<Bucket>, completed: seq<Bucket>)
    requires Sensible(ticks) && HandedOver(handed, ticks, minutes) && |handed| < |ticks|
    requires SlotsIn(completed, MINUTE, Watermark(ticks[..|handed|]), Watermark(ticks[..|handed| + 1]))
    ensures SoundTurn(Handed(completed, ticks[|handed|].later))
    ensures HandedOver(handed + [Handed(completed, ticks[|handed|].later)], ticks, minutes + completed)
  {
    var hs := handed + [Handed(completed, ticks[|handed|].later)];
    assert hs[..|handed|] == handed;
    assert forall i :: 0 <= i < |handed| ==> hs[i] == handed[i];
  }

  lemma {:induction false} MarkIsLatest(ts: seq<Handed>, x: int)
    requires Sound(ts)
    ensures Mark(ts) <= x <==> 0 <= x && forall j :: 0 <= j < |ts| ==> FloorTo(ts[j].now.Floor, FIVE_MINUTES) <= x
  {
    if ts != [] {
      MarkIsLatest(ts[..|ts| - 1], x);
      assert forall j :: 0 <= j < |ts| - 1 ==> ts[..|ts| - 1][j] == ts[j];
    }
  }

  /** The five-minute window in which turn `j` hands over. */
  ghost function WindowOf(ticks: seq<Tick>, j: nat): int
    requires Sensible(ticks) && j < |ticks|
  {
    FloorTo(ticks[j].later.Floor, FIVE_MINUTES)
  }

  /**
   * In the loop, on clock readings alone: the roll-up keeps a finished minute iff the turn that hands it
   * over is past the first window, in a later window than every turn before it, and no turn before it
   * was in a window after the minute.
   */
  lemma {:induction false} LoopKeepsExactly(ticks: seq<Tick>, handed: seq<Handed>, minutes: seq<Bucket>, flushed: int, i: nat, b: Bucket)
    requires Sensible(ticks) && HandedOver(handed, ticks, minutes) && OnceBehind(minutes, flushed, MINUTE)
    requires i < |handed| && b in handed[i].minutes
    ensures b in Books(handed).rolled || b in Books(handed).waiting || b in Books(handed).aged <==>
            0 < WindowOf(ticks, i) && forall j :: 0 <= j < i ==> WindowOf(ticks, j) < WindowOf(ticks, i) && WindowOf(ticks, j) <= b.start
  {
    assert Distinct(minutes);
    KeptExactly(handed, i, b);
    MarkInLoop(ticks, handed, minutes, i, b.start);
    MarkInLoop(ticks, handed, minutes, i, WindowOf(ticks, i) - 1);
    assert b.start >= 0 && handed[i].now == ticks[i].later;
  }

  lemma {:induction false} MarkInLoop(ticks: seq<Tick>, handed: seq<Handed>, minutes: seq<Bucket>, i: nat, x: int)
    requires Sensible(ticks) && HandedOver(handed, ticks, minutes) && i < |handed|
    ensures Mark(handed[..i]) <= x <==> 0 <= x && forall j :: 0 <= j < i ==> WindowOf(ticks, j) <= x
  {
    var ts := handed[..i];
    MarkIsLatest(ts, x);
    forall j | 0 <= j < i ensures FloorTo(ts[j].now.Floor, FIVE_MINUTES) == WindowOf(ticks, j) {
      assert ts[j] == handed[j] && handed[j].now == ticks[j].later;
    }
    assert (forall j :: 0 <= j < i ==> WindowOf(ticks, j) <= x) ==>
      forall j :: 0 <= j < |ts| ==> FloorTo(ts[j].now.Floor, FIVE_MINUTES) <= x;
  }

  /** The pending list between turns: what was appended is what was finished, and it is accounted for. */
  ghost predicate Persisting(s: State, minutes: seq<Bucket>, fives: seq<Bucket>, mark1: int, mark5: int)
  {
    && Accounted(s) && Finished(s.appended, mark1, mark5)
    && forall b :: b in s.appended <==> b in minutes || b in fives
  }

  method Persist(s: State, ghost minutes: seq<Bucket>, ghost fives: seq<Bucket>, completed: seq<Bucket>, fresh5: seq<Bucket>,
                 now: real, flushes: seq<FlushEvent>, ghost lo1: int, ghost hi1: int, ghost lo5: int, ghost hi5: int)
    returns (s': State)
    requires Persisting(s, minutes, fives, lo1, lo5) && lo1 <= hi1 && lo5 <= hi5
    requires OnePerSlot(completed) && SlotsIn(completed, MINUTE, lo1, hi1)
    requires OnePerSlot(fresh5) && SlotsIn(fresh5, FIVE_MINUTES, lo5, hi5)
    ensures Persisting(s', minutes + completed, fives + fresh5, hi1, hi5)
  {
    FinishedGrows(s.appended, completed, fresh5, lo1, hi1, lo5, hi5);
    var appended := Step(s, Append(completed + fresh5, now));
    AppendKeeps(s, Append(completed + fresh5, now));
    s' := Flushed(appended, flushes);
    FlushedKeeps(appended, flushes);
  }

  lemma WatermarkRises(ticks: seq<Tick>, i: nat)
    requires Sensible(ticks) && i < |ticks|
    ensures Watermark(ticks[..i]) <= Watermark(ticks[..i + 1])
  {
    assert ticks[..i + 1][..i] == ticks[..i];
  }

  /** Everything between turns. */
  ghost predicate Going(state: ReportState, five: FiveMinutes, s: State, ticks: seq<Tick>, snaps: seq<map<Key, Totals>>,
                        minutes: seq<Bucket>, fives: seq<Bucket>, parts: seq<seq<Event>>, handed: seq<Handed>)
    requires Sensible(ticks)
    reads state, five
  {
    && |parts| == |handed| <= |ticks| && Reporting(state, ticks, snaps, minutes, parts)
    && HandedOver(handed, ticks, minutes) && OnTrack(five, handed) && five.emitted == fives
    && Persisting(s, minutes, fives, Watermark(ticks[..|parts|]), Mark(handed))
  }

  /** The second half of a turn: the finished minutes go to the five-minute roll-up and to the pending list. */
  method HandOn(five: FiveMinutes, s: State, ticks: seq<Tick>, ghost minutes: seq<Bucket>, ghost fives: seq<Bucket>,
                ghost handed: seq<Handed>, completed: seq<Bucket>, i: nat)
    returns (s': State, windows: seq<Bucket>)
    requires Sensible(ticks) && i == |handed| < |ticks| && HandedOver(handed, ticks, minutes)
    requires OnTrack(five, handed) && five.emitted == fives
    requires Persisting(s, minutes, fives, Watermark(ticks[..i]), Mark(handed))
    requires OnePerSlot(completed) && SlotsIn(completed, MINUTE, Watermark(ticks[..i]), Watermark(ticks[..i + 1]))
    modifies five
    ensures var handed' := handed + [Handed(completed, ticks[i].later)];
            && HandedOver(handed', ticks, minutes + completed) && OnTrack(five, handed') && five.emitted == fives + windows
            && Persisting(s', minutes + completed, fives + windows, Watermark(ticks[..i + 1]), Mark(handed'))
  {
    HandedPush(handed, ticks, minutes, completed);
    ghost var mark := five.flushed;
    windows := HandOver(five, handed, Handed(completed, ticks[i].later));
    WatermarkRises(ticks, i);
    s' := Persist(s, minutes, fives, completed, windows, ticks[i].later, ticks[i].flushes,
                  Watermark(ticks[..i]), Watermark(ticks[..i + 1]), mark, five.flushed);
  }

  method Begin(ticks: seq<Tick>) returns (state: ReportState, five: FiveMinutes)
    requires Sensible(ticks)
    ensures fresh(state) && fresh(five) && Going(state, five, NothingYet, ticks, [], [], [], [], [])
  {
    state := new ReportState();
    five := new FiveMinutes();
    assert ticks[..0] == [];
  }

  /** One turn of the loop. */
  method Turn(state: ReportState, five: FiveMinutes, s: State, ticks: seq<Tick>, ghost snaps: seq<map<Key, Totals>>,
              ghost minutes: seq<Bucket>, ghost fives: seq<Bucket>, ghost parts: seq<seq<Event>>, ghost handed: seq<Handed>, i: nat)
    returns (s': State, snap: map<Key, Totals>, completed: seq<Bucket>, windows: seq<Bucket>, ghost part: seq<Event>)
    requires Sensible(ticks) && i == |parts| < |ticks| && Going(state, five, s, ticks, snaps, minutes, fives, parts, handed)
    modifies state, five
    ensures Going(state, five, s', ticks, snaps + [snap], minutes + completed, fives + windows, parts + [part],
                  handed + [Handed(completed, ticks[i].later)])
  {
    snap, completed, part := TakeTurn(state, ticks, snaps, minutes, parts, i);
    s', windows := HandOn(five, s, ticks, minutes, fives, handed, completed, i);
  }

  method Loop(ticks: seq<Tick>)
    returns (state: ReportState, five: FiveMinutes, s: State, snaps: seq<map<Key, Totals>>, minutes: seq<Bucket>, fives: seq<Bucket>,
             ghost parts: seq<seq<Event>>, ghost handed: seq<Handed>)
    requires Sensible(ticks)
    ensures |parts| == |ticks| && Going(state, five, s, ticks, snaps, minutes, fives, parts, handed)
  {
    state, five := Begin(ticks);
    snaps, minutes, fives, s := [], [], [], NothingYet;
    parts, handed := [], [];
    var i := 0;
    while i < |ticks|
      invariant 0 <= i <= |ticks| && |parts| == i && fresh(state) && fresh(five)
      invariant Going(state, five, s, ticks, snaps, minutes, fives, parts, handed)
    {
      ghost var part;
      var snap, completed, windows;
      s, snap, completed, windows, part := Turn(state, five, s, ticks, snaps, minutes, fives, parts, handed, i);
      snaps, minutes, fives := snaps + [snap], minutes + completed, fives + windows;
      parts, handed := parts + [part], handed + [Handed(completed, ticks[i].later)];
      i := i + 1;
    }
  }

  /**
   * Any number of turns.  Whatever the clock does: from any minute on, everything accepted was emitted
   * once in a minute bucket, is live ahead of the watermark, or was late on arrival; the five-minute
   * buckets are the sums of the minutes that the books call rolled up; and every finished bucket is
   * pending, stored, or was dropped a day old, whichever flushes succeeded or failed in between.
   * With a clock that does not step back every snapshot is exact.
   */
  method Run(ticks: seq<Tick>)
    returns (snaps: seq<map<Key, Totals>>, minutes: seq<Bucket>, fives: seq<Bucket>, live: map<Key, seq<LiveBucket>>, s: State,
             ghost parts: seq<seq<Event>>, ghost handed: seq<Handed>)
    requires Sensible(ticks)
    ensures |parts| == |ticks| && AcceptedBy(parts, ticks)
    ensures Balanced(live, Watermark(ticks), Flat(parts), LateIn(parts, ticks), minutes)
    ensures |snaps| == |ticks| && (ClockRises(ticks) ==> AllExact(snaps, parts, ticks))
    ensures |handed| == |ticks| && HandedOver(handed, ticks, minutes)
    ensures OnceBehind(fives, Mark(handed), FIVE_MINUTES) && SumsOf(fives, Books(handed).rolled)
    ensures Persisting(s, minutes, fives, Watermark(ticks), Mark(handed))
  {
    var state, five;
    state, five, s, snaps, minutes, fives, parts, handed := Loop(ticks);
    assert ticks[..|parts|] == ticks;
    live := state.data;
  }
}

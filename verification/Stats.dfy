/** Collection statistics: average document lengths kept up to date by token-length deltas. */
module Stats {
  import opened Prelude
  import opened Sums

  datatype TokenLengthUpdate = TokenLengthUpdate(newDocCount: int, newSum: int, updateDocCount: int,
                                                 updateSum: int, oldSum: int)

  type Updates = map<string, TokenLengthUpdate>

  datatype Stats = Stats(docCount: int, avgdls: map<string, real>)

  // ------------------------------------------------------------------ one update map

  /** Every entry of one map carries the document count of the same batch. */
  predicate Shared(u: Updates)
  {
    forall f, g :: f in u && g in u ==> u[f].newDocCount == u[g].newDocCount
  }

  ghost function NewDocs(u: Updates): int
  {
    if u == map[] then 0 else var f :| f in u; u[f].newDocCount
  }

  function AvgOf(st: Stats, f: string): real
  {
    if f in st.avgdls then st.avgdls[f] else 0.0
  }

  /** The token length a field stands for: average times document count. */
  function Total(st: Stats, f: string): real
  {
    AvgOf(st, f) * st.docCount as real
  }

  /** What one map adds to a field's token length. */
  function Net(u: Updates, f: string): real
  {
    if f in u then (u[f].newSum + u[f].updateSum - u[f].oldSum) as real else 0.0
  }

  /** The statistics after the fields in `done` were updated for a new count `n`. */
  function Averaged(st: Stats, u: Updates, done: set<string>, n: int): map<string, real>
    requires n > 0 && done <= u.Keys
  {
    map f | f in st.avgdls.Keys + done :: if f in done then (Total(st, f) + Net(u, f)) / n as real else AvgOf(st, f)
  }

  ghost function Applied(st: Stats, u: Updates): Stats
  {
    var n := st.docCount + NewDocs(u);
    if n <= 0 then Stats(0, map[]) else Stats(n, Averaged(st, u, u.Keys, n))
  }

  function FieldSum(mean: real, docs: int, t: TokenLengthUpdate): real
  {
    mean * docs as real - t.oldSum as real + t.newSum as real + t.updateSum as real
  }

  lemma FieldSumIs(st: Stats, u: Updates, f: string)
    requires f in u
    ensures FieldSum(AvgOf(st, f), st.docCount, u[f]) == Total(st, f) + Net(u, f)
  {
  }

  lemma AveragedStep(st: Stats, u: Updates, done: set<string>, f: string, n: int)
    requires n > 0 && done <= u.Keys && f in u && f !in done
    ensures Averaged(st, u, done + {f}, n) ==
            Averaged(st, u, done, n)[f := FieldSum(AvgOf(st, f), st.docCount, u[f]) / n as real]
    ensures Lookup(Averaged(st, u, done, n), f) == Lookup(st.avgdls, f)
  {
    FieldSumIs(st, u, f);
  }

  /** The new averages for `n` documents; fields may be visited in any order. */
  method Average(st: Stats, u: Updates, n: int) returns (avgdls: map<string, real>)
    requires n > 0
    ensures avgdls == Averaged(st, u, u.Keys, n)
  {
    avgdls := st.avgdls;
    var todo := u.Keys;
    while todo != {}
      invariant todo <= u.Keys && avgdls == Averaged(st, u, u.Keys - todo, n)
    {
      var f :| f in todo;
      AveragedStep(st, u, u.Keys - todo, f, n);
      assert u.Keys - todo + {f} == u.Keys - (todo - {f});
      var mean := match Lookup(avgdls, f) case Some(a) => a case None => 0.0;
      avgdls := avgdls[f := FieldSum(mean, st.docCount, u[f]) / n as real];
      todo := todo - {f};
    }
    assert u.Keys - todo == u.Keys;
  }

  class CollectionStats {
    var docCount: int
    var avgdls: map<string, real>

    constructor (docCount: int, avgdls: map<string, real>)
      ensures Value() == Stats(docCount, avgdls)
    {
      this.docCount, this.avgdls := docCount, avgdls;
    }

    function Value(): Stats
      reads this
    {
      Stats(docCount, avgdls)
    }

    method Apply(u: Updates)
      requires Shared(u)
      modifies this
      ensures Value() == Applied(old(Value()), u)
    {
      var added := 0;
      if u != map[] {
        var f :| f in u;
        added := u[f].newDocCount;
      }
      var n := docCount + added;
      if n <= 0 {
        docCount, avgdls := 0, map[];
      } else {
        avgdls := Average(Value(), u, n);
        docCount := n;
      }
    }
  }

  // ------------------------------------------------------------------ running sums

  lemma DivMul(x: real, n: int)
    requires n > 0
    ensures (x / n as real) * n as real == x
  {
  }

  /** One map moves a covered field's token length by exactly its net delta. */
  lemma CoveredField(st: Stats, u: Updates, f: string)
    requires f in u && st.docCount + NewDocs(u) > 0
    ensures Total(Applied(st, u), f) == Total(st, f) + Net(u, f)
  {
    var n := st.docCount + NewDocs(u);
    DivMul(Total(st, f) + Net(u, f), n);
    assert AvgOf(Applied(st, u), f) == (Total(st, f) + Net(u, f)) / n as real;
  }

  lemma Scale(a: real, x: int, y: int)
    ensures a * (x + y) as real == a * x as real + a * y as real
  {
  }

  /** A field the map does not cover keeps its token length only if no documents came or it had none. */
  lemma UncoveredField(st: Stats, u: Updates, f: string)
    requires f !in u && st.docCount + NewDocs(u) > 0
    ensures Total(Applied(st, u), f) == Total(st, f) <==> NewDocs(u) == 0 || AvgOf(st, f) == 0.0
  {
    assert AvgOf(Applied(st, u), f) == AvgOf(st, f);
    Scale(AvgOf(st, f), st.docCount, NewDocs(u));
  }

  ghost function ApplyAll(st: Stats, us: seq<Updates>): Stats
  {
    if us == [] then st else Applied(ApplyAll(st, us[..|us| - 1]), us[|us| - 1])
  }

  /** Every map covers exactly the tracked fields, and the count is positive after every map. */
  ghost predicate Regular(st: Stats, us: seq<Updates>, fields: set<string>)
  {
    && st.avgdls.Keys <= fields
    && (forall i :: 0 <= i < |us| ==> us[i].Keys == fields)
    && (forall i :: 1 <= i <= |us| ==> ApplyAll(st, us[..i]).docCount > 0)
  }

  ghost function NetOf(f: string): Updates -> real
  {
    u => Net(u, f)
  }

  ghost function CountOf(): Updates -> real
  {
    u => NewDocs(u) as real
  }

  lemma {:induction false} RunningSums(st: Stats, us: seq<Updates>, fields: set<string>)
    requires Regular(st, us, fields)
    ensures ApplyAll(st, us).docCount as real == st.docCount as real + Sum(us, CountOf())
    ensures forall f :: f in fields ==> Total(ApplyAll(st, us), f) == Total(st, f) + Sum(us, NetOf(f))
    ensures ApplyAll(st, us).avgdls.Keys <= fields && (us != [] ==> ApplyAll(st, us).avgdls.Keys == fields)
  {
    if us != [] {
      var front, last := us[..|us| - 1], us[|us| - 1];
      assert forall i :: 0 <= i <= |front| ==> front[..i] == us[..i];
      assert us[..|us|] == us;
      RunningSums(st, front, fields);
      var mid := ApplyAll(st, front);
      assert ApplyAll(st, us) == Applied(mid, last) && Applied(mid, last).docCount > 0;
      forall f | f in fields ensures Total(ApplyAll(st, us), f) == Total(st, f) + Sum(us, NetOf(f)) {
        CoveredField(mid, last, f);
      }
    }
  }

  lemma AverageFromTotal(st: Stats, f: string)
    requires st.docCount > 0
    ensures AvgOf(st, f) == Total(st, f) / st.docCount as real
  {
  }

  lemma SameAverages(a: Stats, b: Stats, fields: set<string>)
    requires a.docCount == b.docCount > 0 && a.avgdls.Keys == b.avgdls.Keys == fields
    requires forall f :: f in fields ==> Total(a, f) == Total(b, f)
    ensures a == b
  {
    forall f | f in fields ensures a.avgdls[f] == b.avgdls[f] {
      AverageFromTotal(a, f);
      AverageFromTotal(b, f);
    }
    assert a.avgdls == b.avgdls;
  }

  /** Flushing the same updates in another order gives the same statistics. */
  lemma OrderIndependent(st: Stats, us: seq<Updates>, us': seq<Updates>, fields: set<string>)
    requires multiset(us) == multiset(us') && Regular(st, us, fields) && Regular(st, us', fields)
    ensures ApplyAll(st, us) == ApplyAll(st, us')
  {
    RunningSums(st, us, fields);
    RunningSums(st, us', fields);
    SumPermuted(us, us', CountOf());
    assert |us| == |us'| by { assert |multiset(us)| == |multiset(us')|; }
    if us != [] {
      assert us[..|us|] == us;
      forall f | f in fields ensures Total(ApplyAll(st, us), f) == Total(ApplyAll(st, us'), f) {
        SumPermuted(us, us', NetOf(f));
      }
      SameAverages(ApplyAll(st, us), ApplyAll(st, us'), fields);
    }
  }

  // ------------------------------------------------------------------ flushing a batch of jobs

  datatype StatsJob = StatsJob(collection: string, updates: Updates)

  function JobsOf(jobs: seq<StatsJob>, c: string): seq<Updates>
  {
    if jobs == [] then []
    else
      var front := JobsOf(jobs[..|jobs| - 1], c);
      if jobs[|jobs| - 1].collection == c then front + [jobs[|jobs| - 1].updates] else front
  }

  function StatsAt(all: map<string, Stats>, c: string): Stats
  {
    if c in all then all[c] else Stats(0, map[])
  }

  lemma {:induction false} JobCount(jobs: seq<StatsJob>, c: string, u: Updates)
    ensures multiset(JobsOf(jobs, c))[u] == multiset(jobs)[StatsJob(c, u)]
  {
    if jobs != [] {
      var front, last := jobs[..|jobs| - 1], jobs[|jobs| - 1];
      assert jobs == front + [last];
      JobCount(front, c, u);
    }
  }

  lemma JobsOfPermuted(jobs: seq<StatsJob>, jobs': seq<StatsJob>, c: string)
    requires multiset(jobs) == multiset(jobs')
    ensures multiset(JobsOf(jobs, c)) == multiset(JobsOf(jobs', c))
  {
    forall u ensures multiset(JobsOf(jobs, c))[u] == multiset(JobsOf(jobs', c))[u] {
      JobCount(jobs, c, u);
      JobCount(jobs', c, u);
    }
  }

  lemma {:induction false} JobsOfShared(jobs: seq<StatsJob>, c: string)
    requires forall i :: 0 <= i < |jobs| ==> Shared(jobs[i].updates)
    ensures forall i :: 0 <= i < |JobsOf(jobs, c)| ==> Shared(JobsOf(jobs, c)[i])
    ensures JobsOf(jobs, c) == [] || c in set i | 0 <= i < |jobs| :: jobs[i].collection
  {
    if jobs != [] {
      JobsOfShared(jobs[..|jobs| - 1], c);
    }
  }

  /** The maps of one collection are applied in order between one read and one write. */
  method Persist(stored: Stats, us: seq<Updates>) returns (st: Stats)
    requires forall i :: 0 <= i < |us| ==> Shared(us[i])
    ensures st == ApplyAll(stored, us)
  {
    var current := new CollectionStats(stored.docCount, stored.avgdls);
    for i := 0 to |us|
      invariant fresh(current)
      invariant current.Value() == ApplyAll(stored, us[..i])
    {
      assert us[..i + 1][..i] == us[..i];
      current.Apply(us[i]);
    }
    assert us[..|us|] == us;
    st := current.Value();
  }

  /** Jobs are grouped by collection; collections are flushed in any order. */
  method Flush(all: map<string, Stats>, jobs: seq<StatsJob>) returns (after: map<string, Stats>)
    requires forall i :: 0 <= i < |jobs| ==> Shared(jobs[i].updates)
    ensures forall c :: StatsAt(after, c) == ApplyAll(StatsAt(all, c), JobsOf(jobs, c))
  {
    var names := set i | 0 <= i < |jobs| :: jobs[i].collection;
    after := all;
    var todo := names;
    while todo != {}
      invariant todo <= names
      invariant forall c :: StatsAt(after, c) ==
                  if c in names && c !in todo then ApplyAll(StatsAt(all, c), JobsOf(jobs, c)) else StatsAt(all, c)
      decreases |todo|
    {
      var c :| c in todo;
      JobsOfShared(jobs, c);
      var st := Persist(StatsAt(after, c), JobsOf(jobs, c));
      after := after[c := st];
      todo := todo - {c};
    }
    forall c ensures StatsAt(after, c) == ApplyAll(StatsAt(all, c), JobsOf(jobs, c)) {
      JobsOfShared(jobs, c);
    }
  }

  /** Two flushes of the same jobs in different order leave the same statistics everywhere. */
  lemma FlushOrderIndependent(all: map<string, Stats>, jobs: seq<StatsJob>, jobs': seq<StatsJob>, c: string,
                              fields: set<string>)
    requires multiset(jobs) == multiset(jobs')
    requires Regular(StatsAt(all, c), JobsOf(jobs, c), fields) && Regular(StatsAt(all, c), JobsOf(jobs', c), fields)
    ensures ApplyAll(StatsAt(all, c), JobsOf(jobs, c)) == ApplyAll(StatsAt(all, c), JobsOf(jobs', c))
  {
    JobsOfPermuted(jobs, jobs', c);
    OrderIndependent(StatsAt(all, c), JobsOf(jobs, c), JobsOf(jobs', c), fields);
  }
}

/** The refetch loop of a grouped search. */
module GroupedSearch {
  import opened Prelude
  import opened FilterTree
  import FilterConvert
  import opened RankFusion
  import ArmPool
  import opened GroupCap
  import opened CapGrowth
  import opened GroupExclusion

  const RRF_K: nat := 2

  datatype Settings = Settings(limit: nat, groupMax: nat, maxFetches: nat, field: string, filter: Option<Node>, threshold: Option<real>)

  /** What the database answers in a round: an error, nothing to search, or ranked arms with their documents. */
  datatype Fetch =
    | Failed
    | NoArms
    | Fetched(arms: Arms, scored: ScoredArms, points: map<Id, Metadata>, asked: nat, weights: seq<real>)

  /** The answer may depend on the round as well as on the filter: the database can change in between. */
  type Fetcher = (nat, Option<Node>) -> Fetch

  ghost predicate WellFetched(f: Fetch, width: nat)
  {
    f.Fetched? ==>
      && ArmPool.AllParallel(f.arms, f.scored) && |f.arms| == |f.weights| == width
      && forall id: Id :: Pooled(f.arms, id) ==> id in f.points
  }

  function GroupIn(points: map<Id, Metadata>, field: string): Grouping
  {
    (id: Id) => if id !in points || ValueOf(points[id], field).Null? then None else Some(ValueOf(points[id], field))
  }

  // ------------------------------------------------------------------ one round

  /** A round of the search, after merging, fusing and capping. */
  datatype Round = Round(filter: Option<Node>, arms: Arms, scored: ScoredArms, points: map<Id, Metadata>,
                         fused: seq<(Id, real)>, selected: seq<(Id, real)>, full: Saturation)

  /** Every eligible candidate gathered so far, once, with its score. */
  ghost predicate FusedAll(fused: seq<(Id, real)>, arms: Arms, weights: seq<real>, threshold: Option<real>)
    requires |arms| <= |weights|
  {
    && IdsDiffer(fused)
    && (forall i :: 0 <= i < |fused| ==>
          Eligible(arms, weights, threshold, RRF_K, fused[i].0) && fused[i].1 == Score(arms, weights, RRF_K, fused[i].0))
    && (forall id: Id :: Eligible(arms, weights, threshold, RRF_K, id) ==> Lists(fused, id))
    && (forall i, j :: 0 <= i < j < |fused| ==> fused[i].1 >= fused[j].1)
  }

  /** In the order of the ranking: by score, then by the sum of raw scores, then by id. */
  ghost predicate RankOrder(fused: seq<(Id, real)>, arms: Arms, weights: seq<real>, scored: ScoredArms, threshold: Option<real>)
    requires |arms| <= |weights|
  {
    exists ranking :: RankingOf(ranking, arms, weights, scored, threshold, RRF_K) && FirstOf(fused, ranking, |ranking|)
  }

  /** The groups of the selection that are full, the values in any order. */
  ghost predicate FullIn(full: Saturation, selected: seq<(Id, real)>, group: Grouping, groupMax: nat)
  {
    SaturationOf(selected, group, groupMax, (set v | v in full.values), full.nulls)
  }

  ghost predicate Capped(s: Settings, weights: seq<real>, r: Round)
  {
    var group := GroupIn(r.points, s.field);
    && |r.arms| <= |weights|
    && (forall id: Id :: Pooled(r.arms, id) ==> id in r.points)
    && FusedAll(r.fused, r.arms, weights, s.threshold) && RankOrder(r.fused, r.arms, weights, r.scored, s.threshold)
    && r.selected == Kept(r.fused, group, s.groupMax)[..MinNat(s.limit, |Kept(r.fused, group, s.groupMax)|)]
    && FullIn(r.full, r.selected, group, s.groupMax)
  }

  lemma {:induction false} DistinctFit(items: seq<Fused>, ids: set<Id>)
    requires Ranked(items) && forall i :: 0 <= i < |items| ==> items[i].id in ids
    requires forall i, j :: 0 <= i < j < |items| ==> items[i].id != items[j].id
    ensures |items| <= |ids|
    decreases |items|
  {
    if items != [] {
      var n := |items| - 1;
      DistinctFit(items[..n], ids - {items[n].id});
    }
  }

  lemma RankingIds(items: seq<Fused>, arms: Arms, weights: seq<real>, scored: ScoredArms, threshold: Option<real>, k: nat)
    requires |arms| <= |weights| && RankingOf(items, arms, weights, scored, threshold, k)
    ensures forall i, j :: 0 <= i < j < |items| ==> items[i].id != items[j].id
  {
    RankedDistinct(items);
    forall i, j | 0 <= i < j < |items| ensures items[i].id != items[j].id {
      assert items[i] == FusedOf(arms, weights, scored, k, items[i].id);
      assert items[j] == FusedOf(arms, weights, scored, k, items[j].id);
    }
  }

  /** A pool as large as the documents known cuts nothing off the ranking. */
  lemma NothingCut(items: seq<Fused>, arms: Arms, weights: seq<real>, scored: ScoredArms, threshold: Option<real>, points: map<Id, Metadata>)
    requires |arms| <= |weights| && RankingOf(items, arms, weights, scored, threshold, RRF_K)
    requires forall id: Id :: Pooled(arms, id) ==> id in points
    ensures |items| <= |points|
  {
    RankingIds(items, arms, weights, scored, threshold, RRF_K);
    DistinctFit(items, points.Keys);
    assert |points.Keys| == |points|;
  }

  method Fuse(arms: Arms, weights: seq<real>, scored: ScoredArms, threshold: Option<real>, points: map<Id, Metadata>)
    returns (fused: seq<(Id, real)>)
    requires |arms| <= |weights| && forall id: Id :: Pooled(arms, id) ==> id in points
    ensures FusedAll(fused, arms, weights, threshold) && RankOrder(fused, arms, weights, scored, threshold)
  {
    var poolSize := if |points| == 0 then 1 else |points|;
    fused := RrfFuse(arms, weights, scored, poolSize, threshold, RRF_K);
    ghost var ranking :| RankingOf(ranking, arms, weights, scored, threshold, RRF_K) && FirstOf(fused, ranking, poolSize);
    NothingCut(ranking, arms, weights, scored, threshold, points);
    RankingIds(ranking, arms, weights, scored, threshold, RRF_K);
    assert FirstOf(fused, ranking, |ranking|);
    forall id: Id | Eligible(arms, weights, threshold, RRF_K, id) ensures Lists(fused, id) {
      var i :| 0 <= i < |ranking| && ranking[i] == FusedOf(arms, weights, scored, RRF_K, id);
      assert fused[i].0 == id;
    }
    forall i, j | 0 <= i < j < |fused| ensures fused[i].1 >= fused[j].1 {
      assert Above(ranking[i], ranking[j]);
    }
  }

  method Listed(values: set<Value>) returns (r: seq<Value>)
    ensures values == set v | v in r
  {
    r := [];
    var todo := values;
    while todo != {}
      invariant todo <= values && forall v :: v in r <==> v in values && v !in todo
    {
      var v :| v in todo;
      r := r + [v];
      todo := todo - {v};
    }
  }

  method Conclude(s: Settings, filter: Option<Node>, arms: Arms, scored: ScoredArms, weights: seq<real>, points: map<Id, Metadata>)
    returns (r: Round)
    requires |arms| <= |weights| && forall id: Id :: Pooled(arms, id) ==> id in points
    ensures Capped(s, weights, r) && r.filter == filter && r.arms == arms && r.scored == scored && r.points == points
  {
    var fused := Fuse(arms, weights, scored, s.threshold, points);
    var group := GroupIn(points, s.field);
    var selected, full, nullFull, _ := ApplyGroupCap(fused, group, s.groupMax, s.limit);
    var values := Listed(full);
    r := Round(filter, arms, scored, points, fused, selected, Saturation(values, nullFull));
  }

  // ------------------------------------------------------------------ the loop

  ghost function Filled(trace: seq<Round>): seq<Saturation>
  {
    seq(|trace|, i requires 0 <= i < |trace| => trace[i].full)
  }

  /** Round `j` was fetched with the filter left by the earlier ones and builds on the one before. */
  ghost predicate RoundOk(fetch: Fetcher, s: Settings, weights: seq<real>, trace: seq<Round>, j: nat)
    requires j < |trace|
  {
    BuildsOn(fetch, s, weights, j, Filled(trace[..j]), Before(trace, j), trace[j])
  }

  function Before(trace: seq<Round>, j: nat): Option<Round>
    requires j < |trace|
  {
    if j == 0 then None else Some(trace[j - 1])
  }

  ghost predicate BuildsOn(fetch: Fetcher, s: Settings, weights: seq<real>, j: nat, filled: seq<Saturation>,
                           previous: Option<Round>, r: Round)
  {
    var f := fetch(j, r.filter);
    var before := if previous.None? then [] else previous.value.arms;
    && f.Fetched? && Capped(s, weights, r)
    && r.filter == ExcludeRounds(s.filter, s.field, filled)
    && ArmPool.Fits(before, f.arms) && ArmPool.Extended(before, f.arms, r.arms)
    && (var scores := if previous.None? then [] else previous.value.scored;
        (scores == [] || |scores| == |f.scored|) && ArmPool.ExtendedScored(scores, f.scored, r.scored))
    && r.points == (if previous.None? then map[] else previous.value.points) + f.points
  }

  ghost predicate TraceOk(fetch: Fetcher, s: Settings, weights: seq<real>, trace: seq<Round>)
  {
    forall j :: 0 <= j < |trace| ==> RoundOk(fetch, s, weights, trace, j)
  }

  /** When a round is the last: enough results, no rounds left, nothing more to fetch, or nothing to exclude. */
  predicate Stops(fetch: Fetcher, s: Settings, r: Round, j: nat)
  {
    || s.limit <= |r.selected| || s.maxFetches <= j + 1
    || (var f := fetch(j, r.filter); f.Fetched? && forall a :: 0 <= a < |f.arms| ==> |f.arms[a]| < f.asked)
    || (r.full.values == [] && !r.full.nulls)
  }

  datatype Outcome = SearchFailed | Results(items: seq<(Id, real)>)

  lemma TracePush(fetch: Fetcher, s: Settings, weights: seq<real>, trace: seq<Round>, r: Round)
    requires TraceOk(fetch, s, weights, trace) && RoundOk(fetch, s, weights, trace + [r], |trace|)
    ensures TraceOk(fetch, s, weights, trace + [r])
  {
    forall j | 0 <= j < |trace + [r]| ensures RoundOk(fetch, s, weights, trace + [r], j) {
      if j < |trace| {
        RoundStays(fetch, s, weights, trace, r, j);
      }
    }
  }

  lemma RoundStays(fetch: Fetcher, s: Settings, weights: seq<real>, trace: seq<Round>, r: Round, j: nat)
    requires j < |trace| && RoundOk(fetch, s, weights, trace, j)
    ensures RoundOk(fetch, s, weights, trace + [r], j)
  {
    var all := trace + [r];
    assert all[..j] == trace[..j];
    assert Filled(all[..j]) == Filled(trace[..j]) && Before(all, j) == Before(trace, j) && all[j] == trace[j];
  }

  /** Between rounds: everything gathered is that of the last round, and the filter is the one for the next. */
  ghost predicate Going(fetch: Fetcher, s: Settings, width: nat, weights: seq<real>, trace: seq<Round>,
                        arms: Arms, scored: ScoredArms, points: map<Id, Metadata>, filter: Option<Node>)
  {
    && TraceOk(fetch, s, weights, trace) && filter == ExcludeRounds(s.filter, s.field, Filled(trace))
    && (if trace == [] then arms == [] && scored == [] && points == map[]
        else
          var last := trace[|trace| - 1];
          && arms == last.arms && scored == last.scored && points == last.points && |arms| == width == |weights|
          && fetch(0, s.filter).Fetched? && weights == fetch(0, s.filter).weights)
  }

  lemma MergedKnown(before: Arms, more: Arms, arms: Arms, points: map<Id, Metadata>, found: map<Id, Metadata>)
    requires ArmPool.Fits(before, more) && ArmPool.Extended(before, more, arms)
    requires forall id: Id :: Pooled(before, id) ==> id in points
    requires forall id: Id :: Pooled(more, id) ==> id in found
    ensures forall id: Id :: Pooled(arms, id) ==> id in points + found
  {
    ArmPool.ExtendedGrows(before, more, arms);
  }

  lemma GoingKnown(fetch: Fetcher, s: Settings, width: nat, weights: seq<real>, trace: seq<Round>,
                   arms: Arms, scored: ScoredArms, points: map<Id, Metadata>, filter: Option<Node>)
    requires Going(fetch, s, width, weights, trace, arms, scored, points, filter)
    ensures forall id: Id :: Pooled(arms, id) ==> id in points
  {
    if trace != [] {
      assert RoundOk(fetch, s, weights, trace, |trace| - 1);
    }
  }

  /** The next round builds on the last one. */
  ghost predicate Follows(fetch: Fetcher, s: Settings, weights: seq<real>, j: nat,
                          arms: Arms, scored: ScoredArms, points: map<Id, Metadata>, filter: Option<Node>, r: Round)
  {
    var f := fetch(j, filter);
    && f.Fetched? && Capped(s, weights, r) && r.filter == filter
    && ArmPool.Fits(arms, f.arms) && ArmPool.Extended(arms, f.arms, r.arms) && r.points == points + f.points
    && (scored == [] || |scored| == |f.scored|) && ArmPool.ExtendedScored(scored, f.scored, r.scored)
  }

  lemma FollowsOk(fetch: Fetcher, s: Settings, width: nat, weights: seq<real>, weights': seq<real>, trace: seq<Round>,
                  arms: Arms, scored: ScoredArms, points: map<Id, Metadata>, filter: Option<Node>, r: Round)
    requires Going(fetch, s, width, weights, trace, arms, scored, points, filter)
    requires Follows(fetch, s, weights', |trace|, arms, scored, points, filter, r)
    ensures RoundOk(fetch, s, weights', trace + [r], |trace|)
  {
    assert (trace + [r])[..|trace|] == trace && (trace + [r])[|trace|] == r;
  }

  lemma GoesOn(fetch: Fetcher, s: Settings, width: nat, weights: seq<real>, weights': seq<real>, trace: seq<Round>,
               arms: Arms, scored: ScoredArms, points: map<Id, Metadata>, filter: Option<Node>, r: Round)
    requires Going(fetch, s, width, weights, trace, arms, scored, points, filter)
    requires var f := fetch(|trace|, filter);
             f.Fetched? && WellFetched(f, width) && weights' == if trace == [] then f.weights else weights
    requires Follows(fetch, s, weights', |trace|, arms, scored, points, filter, r)
    ensures Going(fetch, s, width, weights', trace + [r], r.arms, r.scored, r.points, Exclude(filter, s.field, r.full))
  {
    FollowsOk(fetch, s, width, weights, weights', trace, arms, scored, points, filter, r);
    TracePush(fetch, s, weights', trace, r);
    FilledPush(trace, r);
    if trace == [] {
      assert Filled(trace) == [];
    }
  }

  /** One fetched round. */
  method Advance(pool: ArmPool.Pool, fetch: Fetcher, s: Settings, ghost width: nat, weights: seq<real>, ghost trace: seq<Round>,
                 first: bool, points: map<Id, Metadata>, filter: Option<Node>, f: Fetch)
    returns (r: Round, weights': seq<real>)
    requires pool.Valid() && Going(fetch, s, width, weights, trace, pool.arms, pool.scored, points, filter) && (first <==> trace == [])
    requires f == fetch(|trace|, filter) && f.Fetched? && WellFetched(f, width)
    modifies pool
    ensures pool.Valid() && pool.arms == r.arms && pool.scored == r.scored && r.filter == filter
    ensures Going(fetch, s, width, weights', trace + [r], r.arms, r.scored, r.points, Exclude(filter, s.field, r.full))
  {
    weights' := if first then f.weights else weights;
    ghost var before, scores := pool.arms, pool.scored;
    GoingKnown(fetch, s, width, weights, trace, before, scores, points, filter);
    pool.Merge(f.arms, f.scored);
    MergedKnown(before, f.arms, pool.arms, points, f.points);
    r := Conclude(s, filter, pool.arms, pool.scored, weights', points + f.points);
    GoesOn(fetch, s, width, weights, weights', trace, before, scores, points, filter, r);
  }

  /**
   * The rounds behind an outcome: each builds on the one before, the weights are those of the first,
   * only the last may stop the search, and if it does not, the next answer was an error or empty.
   */
  ghost predicate Explains(fetch: Fetcher, s: Settings, weights: seq<real>, trace: seq<Round>, outcome: Outcome)
  {
    var n := |trace|;
    && TraceOk(fetch, s, weights, trace) && n <= (if s.maxFetches == 0 then 1 else s.maxFetches)
    && (n > 0 ==> var f := fetch(0, s.filter); f.Fetched? && weights == f.weights)
    && (forall j :: 0 <= j < n - 1 ==> !Stops(fetch, s, trace[j], j))
    && if n > 0 && Stops(fetch, s, trace[n - 1], n - 1) then outcome == Results(trace[n - 1].selected)
       else
         var f := fetch(n, ExcludeRounds(s.filter, s.field, Filled(trace)));
         (f.Failed? && outcome == SearchFailed) || (f.NoArms? && outcome == Results([]))
  }

  /** Rounds until one stops the search; an error or an empty answer ends it at once. */
  method Search(fetch: Fetcher, s: Settings, ghost width: nat) returns (outcome: Outcome)
    requires forall j: nat, filter: Option<Node> :: WellFetched(fetch(j, filter), width)
    ensures exists weights, trace :: Explains(fetch, s, weights, trace, outcome)
  {
    var pool := new ArmPool.Pool();
    var filter, points, armWeights := s.filter, map[], [];
    ghost var trace: seq<Round> := [];
    var rounds := if s.maxFetches == 0 then 1 else s.maxFetches;
    var j := 0;
    while true
      invariant 0 <= j < rounds && |trace| == j && fresh(pool) && pool.Valid()
      invariant Going(fetch, s, width, armWeights, trace, pool.arms, pool.scored, points, filter)
      invariant forall i :: 0 <= i < j ==> !Stops(fetch, s, trace[i], i)
      decreases rounds - j
    {
      var f := fetch(j, filter);
      if !f.Fetched? {
        outcome := if f.Failed? then SearchFailed else Results([]);
        assert Explains(fetch, s, armWeights, trace, outcome);
        return;
      }
      assert WellFetched(f, width);
      var r;
      r, armWeights := Advance(pool, fetch, s, width, armWeights, trace, j == 0, points, filter, f);
      trace := trace + [r];
      if Stops(fetch, s, r, j) {
        outcome := Results(r.selected);
        assert Explains(fetch, s, armWeights, trace, outcome);
        return;
      }
      filter, points := Exclude(filter, s.field, r.full), r.points;
      j := j + 1;
    }
  }

  lemma FilledPush(trace: seq<Round>, r: Round)
    ensures Filled(trace + [r]) == Filled(trace) + [r.full]
    ensures forall existing: Option<Node>, field: string ::
              ExcludeRounds(existing, field, Filled(trace + [r])) == Exclude(ExcludeRounds(existing, field, Filled(trace)), field, r.full)
  {
    assert Filled(trace + [r]) == Filled(trace) + [r.full];
    assert (Filled(trace) + [r.full])[..|trace|] == Filled(trace);
  }

  // ------------------------------------------------------------------ over whole searches

  /** Documents keep their group value while the search runs. */
  ghost predicate Stable(s: Settings, trace: seq<Round>, group: Grouping)
  {
    forall j, id :: 0 <= j < |trace| && id in trace[j].points ==> GroupIn(trace[j].points, s.field)(id) == group(id)
  }

  lemma SelectedCount(s: Settings, weights: seq<real>, r: Round, group: Grouping)
    requires Capped(s, weights, r) && forall id: Id :: id in r.points ==> GroupIn(r.points, s.field)(id) == group(id)
    ensures |r.selected| == MinNat(s.limit, CapTotal(r.fused, group, s.groupMax))
  {
    var own := GroupIn(r.points, s.field);
    KeptTotal(r.fused, own, s.groupMax);
    CapTotalSame(r.fused, own, group, s.groupMax);
  }

  /** What was a candidate stays one. */
  lemma FusedCovers(arms: Arms, more: Arms, arms': Arms, weights: seq<real>, threshold: Option<real>,
                    fused: seq<(Id, real)>, fused': seq<(Id, real)>)
    requires ArmPool.Fits(arms, more) && ArmPool.Extended(arms, more, arms') && |arms| <= |weights| && |arms'| <= |weights|
    requires ArmPool.Admitting(weights, threshold)
    requires FusedAll(fused, arms, weights, threshold) && FusedAll(fused', arms', weights, threshold)
    ensures IdsDiffer(fused) && IncludesIds(fused, fused')
  {
    forall i | 0 <= i < |fused| ensures Lists(fused', fused[i].0) {
      ArmPool.StaysEligible(arms, more, arms', weights, threshold, RRF_K, fused[i].0);
    }
  }

  lemma NextSelectsMore(s: Settings, weights: seq<real>, r: Round, more: Arms, r': Round, group: Grouping)
    requires Capped(s, weights, r) && Capped(s, weights, r')
    requires ArmPool.Fits(r.arms, more) && ArmPool.Extended(r.arms, more, r'.arms)
    requires forall id: Id :: id in r.points ==> GroupIn(r.points, s.field)(id) == group(id)
    requires forall id: Id :: id in r'.points ==> GroupIn(r'.points, s.field)(id) == group(id)
    requires ArmPool.Admitting(weights, s.threshold)
    ensures |r.selected| <= |r'.selected|
  {
    FusedCovers(r.arms, more, r'.arms, weights, s.threshold, r.fused, r'.fused);
    CapTotalRises(r.fused, r'.fused, group, s.groupMax);
    SelectedCount(s, weights, r, group);
    SelectedCount(s, weights, r', group);
  }

  lemma RoundNeverShrinks(fetch: Fetcher, s: Settings, weights: seq<real>, trace: seq<Round>, j: nat, group: Grouping)
    requires TraceOk(fetch, s, weights, trace) && j + 1 < |trace| && Stable(s, trace, group)
    requires ArmPool.Admitting(weights, s.threshold)
    ensures |trace[j].selected| <= |trace[j + 1].selected|
  {
    assert RoundOk(fetch, s, weights, trace, j) && RoundOk(fetch, s, weights, trace, j + 1);
    NextSelectsMore(s, weights, trace[j], fetch(j + 1, trace[j + 1].filter).arms, trace[j + 1], group);
  }

  /** Without a threshold, or with weights that are not negative, no later round selects fewer results than an earlier one. */
  lemma {:induction false} SearchNeverShrinks(fetch: Fetcher, s: Settings, weights: seq<real>, trace: seq<Round>, i: nat, j: nat, group: Grouping)
    requires TraceOk(fetch, s, weights, trace) && i <= j < |trace| && Stable(s, trace, group)
    requires ArmPool.Admitting(weights, s.threshold)
    ensures |trace[i].selected| <= |trace[j].selected|
    decreases j
  {
    if i < j {
      SearchNeverShrinks(fetch, s, weights, trace, i, j - 1, group);
      RoundNeverShrinks(fetch, s, weights, trace, j - 1, group);
    }
  }

  lemma PrefixCount(items: seq<(Id, real)>, n: nat, group: Grouping, g: Group)
    requires n <= |items|
    ensures CountOf(items[..n], group, g) <= CountOf(items, group, g)
  {
    CountConcat(items[..n], items[n..], group, g);
    assert items == items[..n] + items[n..];
  }

  /** Every selection respects the limit and the cap, and is short only if the candidates ran out. */
  lemma SelectionBounds(s: Settings, weights: seq<real>, r: Round, g: Group)
    requires Capped(s, weights, r)
    ensures |r.selected| <= s.limit && CountOf(r.selected, GroupIn(r.points, s.field), g) <= s.groupMax
    ensures |r.selected| == MinNat(s.limit, CapTotal(r.fused, GroupIn(r.points, s.field), s.groupMax))
  {
    var group := GroupIn(r.points, s.field);
    var kept := Kept(r.fused, group, s.groupMax);
    KeptTotal(r.fused, group, s.groupMax);
    KeptCount(r.fused, group, s.groupMax, g);
    PrefixCount(kept, |r.selected|, group, g);
  }

  /** The filter of a round admits exactly what the query's own filter admits and no earlier round found full. */
  lemma RefetchExact(fetch: Fetcher, s: Settings, weights: seq<real>, trace: seq<Round>, j: nat,
                     indexes: seq<FilterConvert.Index>, instant: string -> Option<int>, m: Metadata)
    requires TraceOk(fetch, s, weights, trace) && j < |trace| && Translates(s.filter, indexes, instant)
    requires AllMatchable(Filled(trace[..j]))
    ensures Translates(trace[j].filter, indexes, instant)
    ensures Admits(trace[j].filter, indexes, instant, m) <==>
            Admits(s.filter, indexes, instant, m) && Spared(s.field, Filled(trace[..j]), m)
  {
    assert RoundOk(fetch, s, weights, trace, j);
    ExclusionExact(s.filter, s.field, Filled(trace[..j]), indexes, instant, m);
  }
}

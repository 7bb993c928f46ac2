/** Reciprocal rank fusion of ranked arms. */
module RankFusion {
  import opened Prelude
  import Lex

  type Id = string

  type Arms = seq<seq<Id>>

  type ScoredArms = seq<seq<(Id, real)>>

  /** A fused candidate: its score and the unweighted sum that breaks ties. */
  datatype Fused = Fused(id: Id, score: real, raw: real)

  // ------------------------------------------------------------------ scores

  /** An arm gives weight / (k + rank) to the id at each rank, counted from one. */
  function ArmScore(ids: seq<Id>, weight: real, k: nat, id: Id): real
  {
    if ids == [] then 0.0
    else
      ArmScore(ids[..|ids| - 1], weight, k, id) + if ids[|ids| - 1] == id then weight / (k + |ids|) as real else 0.0
  }

  function Score(arms: Arms, weights: seq<real>, k: nat, id: Id): real
    requires |arms| <= |weights|
  {
    if arms == [] then 0.0
    else Score(arms[..|arms| - 1], weights, k, id) + ArmScore(arms[|arms| - 1], weights[|arms| - 1], k, id)
  }

  function ArmRaw(arm: seq<(Id, real)>, id: Id): real
  {
    if arm == [] then 0.0
    else ArmRaw(arm[..|arm| - 1], id) + if arm[|arm| - 1].0 == id then arm[|arm| - 1].1 else 0.0
  }

  function Raw(scored: ScoredArms, id: Id): real
  {
    if scored == [] then 0.0 else Raw(scored[..|scored| - 1], id) + ArmRaw(scored[|scored| - 1], id)
  }

  predicate Pooled(arms: Arms, id: Id)
  {
    exists a :: 0 <= a < |arms| && id in arms[a]
  }

  predicate Eligible(arms: Arms, weights: seq<real>, threshold: Option<real>, k: nat, id: Id)
    requires |arms| <= |weights|
  {
    Pooled(arms, id) && (threshold.Some? ==> threshold.value <= Score(arms, weights, k, id))
  }

  // ------------------------------------------------------------------ the order of results

  predicate Above(a: Fused, b: Fused)
  {
    a.score > b.score || (a.score == b.score && (a.raw > b.raw || (a.raw == b.raw && Lex.Less(a.id, b.id))))
  }

  predicate Ranked(items: seq<Fused>)
  {
    forall i, j :: 0 <= i < j < |items| ==> Above(items[i], items[j])
  }

  lemma AboveTotal(a: Fused, b: Fused)
    requires a.id != b.id
    ensures Above(a, b) || Above(b, a)
  {
    Lex.Trichotomy(a.id, b.id);
  }

  lemma AboveTransitive(a: Fused, b: Fused, c: Fused)
    requires Above(a, b) && Above(b, c)
    ensures Above(a, c)
  {
    if a.score == b.score == c.score && a.raw == b.raw == c.raw {
      Lex.Transitive(a.id, b.id, c.id);
    }
  }

  lemma AboveAsymmetric(a: Fused, b: Fused)
    requires Above(a, b)
    ensures !Above(b, a)
  {
    if a.score == b.score && a.raw == b.raw {
      Lex.Asymmetric(a.id, b.id);
    }
  }

  /** All eligible ids and no others, each with its own score, in order. */
  ghost predicate RankingOf(items: seq<Fused>, arms: Arms, weights: seq<real>, scored: ScoredArms, threshold: Option<real>, k: nat)
    requires |arms| <= |weights|
  {
    && Ranked(items)
    && (forall i :: 0 <= i < |items| ==>
          Eligible(arms, weights, threshold, k, items[i].id) && items[i] == FusedOf(arms, weights, scored, k, items[i].id))
    && (forall id: Id :: Eligible(arms, weights, threshold, k, id) ==> FusedOf(arms, weights, scored, k, id) in items)
  }

  function FusedOf(arms: Arms, weights: seq<real>, scored: ScoredArms, k: nat, id: Id): Fused
    requires |arms| <= |weights|
  {
    Fused(id, Score(arms, weights, k, id), Raw(scored, id))
  }

  lemma RankedDistinct(items: seq<Fused>)
    requires Ranked(items)
    ensures forall i, j :: 0 <= i < j < |items| ==> items[i] != items[j]
  {
    forall i, j | 0 <= i < j < |items| ensures items[i] != items[j] {
      AboveAsymmetric(items[i], items[j]);
    }
  }

  /** Two ranked lists with the same members are the same list. */
  lemma {:induction false} RankedUnique(a: seq<Fused>, b: seq<Fused>)
    requires Ranked(a) && Ranked(b) && (forall x :: x in a <==> x in b)
    ensures a == b
    decreases |a|
  {
    assert b != [] ==> b[0] in b;
    if a != [] {
      assert a[0] in a;
      var i :| 0 <= i < |b| && b[i] == a[0];
      var j :| 0 <= j < |a| && a[j] == b[0];
      if i != 0 {
        assert Above(a[0], a[j]) && Above(b[0], b[i]);
        AboveAsymmetric(a[0], b[0]);
      }
      RankedDistinct(a);
      RankedDistinct(b);
      forall x ensures x in a[1..] <==> x in b[1..] {
        assert x in a <==> x == a[0] || x in a[1..] by { assert a == [a[0]] + a[1..]; }
        assert x in b <==> x == b[0] || x in b[1..] by { assert b == [b[0]] + b[1..]; }
      }
      RankedUnique(a[1..], b[1..]);
      assert a == [a[0]] + a[1..] && b == [b[0]] + b[1..];
    }
  }

  /** So the fused ranking does not depend on the order in which the maps are walked. */
  lemma RankingUnique(a: seq<Fused>, b: seq<Fused>, arms: Arms, weights: seq<real>, scored: ScoredArms, threshold: Option<real>, k: nat)
    requires |arms| <= |weights|
    requires RankingOf(a, arms, weights, scored, threshold, k) && RankingOf(b, arms, weights, scored, threshold, k)
    ensures a == b
  {
    RankedUnique(a, b);
  }

  // ------------------------------------------------------------------ fusing

  function At(m: map<Id, real>, id: Id): real
  {
    if id in m then m[id] else 0.0
  }

  method AddArm(fused: map<Id, real>, ids: seq<Id>, weight: real, k: nat) returns (r: map<Id, real>)
    ensures forall id: Id :: id in r <==> id in fused || id in ids
    ensures forall id: Id :: At(r, id) == At(fused, id) + ArmScore(ids, weight, k, id)
  {
    r := fused;
    for i := 0 to |ids|
      invariant forall id: Id :: id in r <==> id in fused || id in ids[..i]
      invariant forall id: Id :: At(r, id) == At(fused, id) + ArmScore(ids[..i], weight, k, id)
    {
      assert ids[..i + 1] == ids[..i] + [ids[i]] && ids[..i + 1][..i] == ids[..i];
      r := r[ids[i] := At(r, ids[i]) + weight / (k + i + 1) as real];
    }
    assert ids[..|ids|] == ids;
  }

  method AddScores(arms: Arms, weights: seq<real>, k: nat) returns (fused: map<Id, real>)
    requires |arms| <= |weights|
    ensures forall id: Id :: id in fused <==> Pooled(arms, id)
    ensures forall id: Id :: At(fused, id) == Score(arms, weights, k, id)
  {
    fused := map[];
    for a := 0 to |arms|
      invariant forall id: Id :: id in fused <==> Pooled(arms[..a], id)
      invariant forall id: Id :: At(fused, id) == Score(arms[..a], weights, k, id)
    {
      assert arms[..a + 1][..a] == arms[..a] && arms[..a + 1][a] == arms[a];
      ghost var before := fused;
      fused := AddArm(fused, arms[a], weights[a], k);
      forall id: Id ensures id in fused <==> Pooled(arms[..a + 1], id) {
        PooledPush(arms[..a], arms[a], id);
        assert arms[..a + 1] == arms[..a] + [arms[a]];
      }
    }
    assert arms[..|arms|] == arms;
  }

  lemma PooledPush(arms: Arms, ids: seq<Id>, id: Id)
    ensures Pooled(arms + [ids], id) <==> Pooled(arms, id) || id in ids
  {
    var all := arms + [ids];
    assert all[|arms|] == ids;
    if Pooled(arms, id) {
      var a :| 0 <= a < |arms| && id in arms[a];
      assert all[a] == arms[a];
    }
  }

  method AddRawArm(sums: map<Id, real>, arm: seq<(Id, real)>) returns (r: map<Id, real>)
    ensures forall id: Id :: At(r, id) == At(sums, id) + ArmRaw(arm, id)
  {
    r := sums;
    for i := 0 to |arm|
      invariant forall id: Id :: At(r, id) == At(sums, id) + ArmRaw(arm[..i], id)
    {
      assert arm[..i + 1][..i] == arm[..i];
      r := r[arm[i].0 := At(r, arm[i].0) + arm[i].1];
    }
    assert arm[..|arm|] == arm;
  }

  method AddRaw(scored: ScoredArms) returns (sums: map<Id, real>)
    ensures forall id: Id :: At(sums, id) == Raw(scored, id)
  {
    sums := map[];
    for a := 0 to |scored|
      invariant forall id: Id :: At(sums, id) == Raw(scored[..a], id)
    {
      assert scored[..a + 1][..a] == scored[..a];
      sums := AddRawArm(sums, scored[a]);
    }
    assert scored[..|scored|] == scored;
  }

  /** Sorting, one candidate at a time. */
  method Insert(items: seq<Fused>, x: Fused) returns (r: seq<Fused>)
    requires Ranked(items) && forall i :: 0 <= i < |items| ==> items[i].id != x.id
    ensures Ranked(r) && forall y :: y in r <==> y in items || y == x
  {
    var p := 0;
    while p < |items| && Above(items[p], x)
      invariant 0 <= p <= |items|
      invariant forall i :: 0 <= i < p ==> Above(items[i], x)
    {
      p := p + 1;
    }
    forall i | p <= i < |items| ensures Above(x, items[i]) {
      AboveTotal(items[p], x);
      if i != p {
        AboveTransitive(x, items[p], items[i]);
      }
    }
    assert items == items[..p] + items[p..];
    r := items[..p] + [x] + items[p..];
    forall i, j | 0 <= i < j < |r| ensures Above(r[i], r[j]) {
      assert r[i] == if i < p then items[i] else if i == p then x else items[i - 1];
      assert r[j] == if j < p then items[j] else if j == p then x else items[j - 1];
    }
  }

  method RankAll(fused: map<Id, real>, sums: map<Id, real>, threshold: Option<real>) returns (items: seq<Fused>)
    ensures Ranked(items)
    ensures forall y :: y in items <==>
              y.id in fused && y == Fused(y.id, fused[y.id], At(sums, y.id)) && (threshold.Some? ==> threshold.value <= y.score)
  {
    items := [];
    var todo := fused.Keys;
    while todo != {}
      invariant todo <= fused.Keys && Ranked(items)
      invariant forall y :: y in items <==>
                  y.id in fused && y.id !in todo && y == Fused(y.id, fused[y.id], At(sums, y.id)) && (threshold.Some? ==> threshold.value <= y.score)
    {
      var id :| id in todo;
      if threshold.None? || threshold.value <= fused[id] {
        assert forall i :: 0 <= i < |items| ==> items[i] in items;
        items := Insert(items, Fused(id, fused[id], At(sums, id)));
      }
      todo := todo - {id};
    }
  }

  /** The first `limit` entries of a ranking, without the tie-breaking sums. */
  predicate FirstOf(r: seq<(Id, real)>, ranking: seq<Fused>, limit: nat)
  {
    |r| == (if |ranking| < limit then |ranking| else limit) &&
    forall i :: 0 <= i < |r| ==> r[i] == (ranking[i].id, ranking[i].score)
  }

  /** The best `limit` eligible candidates. */
  method RrfFuse(arms: Arms, weights: seq<real>, scored: ScoredArms, limit: nat, threshold: Option<real>, k: nat)
    returns (r: seq<(Id, real)>)
    requires |arms| <= |weights|
    ensures exists ranking :: RankingOf(ranking, arms, weights, scored, threshold, k) && FirstOf(r, ranking, limit)
  {
    var fused := AddScores(arms, weights, k);
    var sums := AddRaw(scored);
    var items := RankAll(fused, sums, threshold);
    forall i | 0 <= i < |items|
      ensures Eligible(arms, weights, threshold, k, items[i].id) && items[i] == FusedOf(arms, weights, scored, k, items[i].id)
    {
      assert items[i] in items && At(fused, items[i].id) == fused[items[i].id];
    }
    forall id: Id | Eligible(arms, weights, threshold, k, id) ensures FusedOf(arms, weights, scored, k, id) in items {
      assert At(fused, id) == fused[id];
    }
    var n := if |items| < limit then |items| else limit;
    r := seq(n, i requires 0 <= i < n => (items[i].id, items[i].score));
    assert RankingOf(items, arms, weights, scored, threshold, k) && FirstOf(r, items, limit);
  }
}

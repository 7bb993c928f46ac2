/** The candidates gathered so far, arm by arm, over the rounds of a grouped search. */
module ArmPool {
  import opened Prelude
  import opened RankFusion

  /** The scored list of an arm names the same ids in the same order. */
  predicate Parallel(ids: seq<Id>, scored: seq<(Id, real)>)
  {
    |ids| == |scored| && forall i :: 0 <= i < |ids| ==> scored[i].0 == ids[i]
  }

  predicate AllParallel(arms: Arms, scored: ScoredArms)
  {
    |arms| == |scored| && forall a :: 0 <= a < |arms| ==> Parallel(arms[a], scored[a])
  }

  /** Ids not seen in the arm before, appended in their order. */
  function Extend(ids: seq<Id>, more: seq<Id>): seq<Id>
  {
    if more == [] then ids
    else
      var r := Extend(ids, more[..|more| - 1]);
      if more[|more| - 1] in r then r else r + [more[|more| - 1]]
  }

  lemma {:induction false} ExtendKeeps(ids: seq<Id>, more: seq<Id>)
    ensures ids <= Extend(ids, more)
    ensures Distinct(ids) ==> Distinct(Extend(ids, more))
    ensures forall id :: id in Extend(ids, more) <==> id in ids || id in more
  {
    if more != [] {
      var n := |more| - 1;
      var r := Extend(ids, more[..n]);
      ExtendKeeps(ids, more[..n]);
      assert more == more[..n] + [more[n]];
      assert forall i :: 0 <= i < |r| ==> r[i] in r;
    }
  }

  predicate Names(scored: seq<(Id, real)>, id: Id)
  {
    exists i :: 0 <= i < |scored| && scored[i].0 == id
  }

  /** The scored list keeps the first score of every id. */
  function ExtendScored(scored: seq<(Id, real)>, more: seq<(Id, real)>): seq<(Id, real)>
  {
    if more == [] then scored
    else
      var r := ExtendScored(scored, more[..|more| - 1]);
      if Names(r, more[|more| - 1].0) then r else r + [more[|more| - 1]]
  }

  predicate Fits(arms: Arms, more: Arms)
  {
    arms == [] || |arms| == |more|
  }

  /** Every arm extended by its new ids; the first round starts from empty arms. */
  ghost predicate Extended(arms: Arms, more: Arms, arms': Arms)
    requires Fits(arms, more)
  {
    |arms'| == |more| &&
    forall a :: 0 <= a < |more| ==> arms'[a] == Extend(if arms == [] then [] else arms[a], more[a])
  }

  ghost predicate ExtendedScored(scored: ScoredArms, more: ScoredArms, scored': ScoredArms)
    requires scored == [] || |scored| == |more|
  {
    |scored'| == |more| &&
    forall a :: 0 <= a < |more| ==> scored'[a] == ExtendScored(if scored == [] then [] else scored[a], more[a])
  }

  class Pool {
    var arms: Arms
    var scored: ScoredArms
    var seen: seq<set<Id>>

    ghost predicate Valid()
      reads this
    {
      && AllParallel(arms, scored) && |seen| == |arms|
      && forall a :: 0 <= a < |arms| ==> Distinct(arms[a]) && (forall id :: id in seen[a] <==> id in arms[a])
    }

    constructor ()
      ensures Valid() && arms == []
    {
      arms, scored, seen := [], [], [];
    }

    /** One round's candidates join their arms. */
    method Merge(more: Arms, moreScored: ScoredArms)
      requires Valid() && AllParallel(more, moreScored) && Fits(arms, more)
      modifies this
      ensures Valid() && Extended(old(arms), more, arms) && ExtendedScored(old(scored), moreScored, scored)
    {
      if arms == [] {
        arms, scored, seen := seq(|more|, _ => []), seq(|more|, _ => []), seq(|more|, _ => {});
      }
      ghost var start, startScored := arms, scored;
      for a := 0 to |more|
        invariant Valid() && |arms| == |more| == |start|
        invariant |scored| == |startScored|
        invariant forall b :: 0 <= b < a ==> arms[b] == Extend(start[b], more[b]) && scored[b] == ExtendScored(startScored[b], moreScored[b])
        invariant forall b :: a <= b < |arms| ==> arms[b] == start[b] && scored[b] == startScored[b]
      {
        var ids, scores, known := MergeArm(arms[a], scored[a], seen[a], more[a], moreScored[a]);
        arms, scored, seen := arms[a := ids], scored[a := scores], seen[a := known];
      }
    }
  }

  method MergeArm(ids: seq<Id>, scores: seq<(Id, real)>, seen: set<Id>, more: seq<Id>, moreScores: seq<(Id, real)>)
    returns (ids': seq<Id>, scores': seq<(Id, real)>, seen': set<Id>)
    requires Parallel(ids, scores) && Parallel(more, moreScores) && Distinct(ids) && forall id :: id in seen <==> id in ids
    ensures ids' == Extend(ids, more) && scores' == ExtendScored(scores, moreScores)
    ensures Distinct(ids') && Parallel(ids', scores')
    ensures forall id :: id in seen' <==> id in ids'
  {
    ids', scores', seen' := ids, scores, seen;
    for i := 0 to |more|
      invariant ids' == Extend(ids, more[..i]) && scores' == ExtendScored(scores, moreScores[..i]) && Parallel(ids', scores')
      invariant forall id :: id in seen' <==> id in ids'
    {
      assert more[..i + 1][..i] == more[..i] && moreScores[..i + 1][..i] == moreScores[..i];
      assert Names(scores', more[i]) <==> more[i] in ids';
      if more[i] !in seen' {
        ids', scores', seen' := ids' + [more[i]], scores' + [moreScores[i]], seen' + {more[i]};
      }
    }
    assert more[..|more|] == more && moreScores[..|more|] == moreScores;
    ExtendKeeps(ids, more);
  }

  // ------------------------------------------------------------------ merging never lowers a score

  lemma {:induction false} ArmScoreRises(ids: seq<Id>, ids': seq<Id>, weight: real, k: nat, id: Id)
    requires ids <= ids' && weight >= 0.0
    ensures ArmScore(ids, weight, k, id) <= ArmScore(ids', weight, k, id)
    decreases |ids'|
  {
    if ids != ids' {
      ArmScoreRises(ids, ids'[..|ids'| - 1], weight, k, id);
      ShareNotNegative(weight, k + |ids'|);
    }
  }

  lemma ShareNotNegative(weight: real, n: nat)
    requires weight >= 0.0 && n > 0
    ensures weight / n as real >= 0.0
  {
  }

  /** Arms that only grow at the end. */
  ghost predicate Grown(arms: Arms, arms': Arms)
  {
    |arms| <= |arms'| && forall a :: 0 <= a < |arms| ==> arms[a] <= arms'[a]
  }

  lemma {:induction false} ScoreRises(arms: Arms, arms': Arms, weights: seq<real>, k: nat, id: Id)
    requires Grown(arms, arms') && |arms'| <= |weights| && forall a :: 0 <= a < |arms'| ==> weights[a] >= 0.0
    ensures Score(arms, weights, k, id) <= Score(arms', weights, k, id)
    decreases |arms'|
  {
    if arms' != [] {
      var n := |arms'| - 1;
      if |arms| == |arms'| {
        ScoreRises(arms[..n], arms'[..n], weights, k, id);
        ArmScoreRises(arms[n], arms'[n], weights[n], k, id);
      } else {
        ScoreRises(arms, arms'[..n], weights, k, id);
        ArmScoreRises([], arms'[n], weights[n], k, id);
      }
    }
  }

  lemma ExtendedGrows(arms: Arms, more: Arms, arms': Arms)
    requires Fits(arms, more) && Extended(arms, more, arms')
    ensures Grown(arms, arms')
    ensures forall id :: Pooled(arms', id) <==> Pooled(arms, id) || Pooled(more, id)
  {
    forall a | 0 <= a < |more|
      ensures (if arms == [] then [] else arms[a]) <= arms'[a]
      ensures forall id :: id in arms'[a] <==> id in more[a] || (arms != [] && id in arms[a])
    {
      ExtendKeeps(if arms == [] then [] else arms[a], more[a]);
    }
    forall id ensures Pooled(arms', id) <==> Pooled(arms, id) || Pooled(more, id) {
      if Pooled(arms', id) {
        var a :| 0 <= a < |arms'| && id in arms'[a];
        assert id in more[a] || (arms != [] && id in arms[a]);
      }
      if Pooled(arms, id) {
        var a :| 0 <= a < |arms| && id in arms[a];
        assert id in arms'[a];
      }
      if Pooled(more, id) {
        var a :| 0 <= a < |more| && id in more[a];
        assert id in arms'[a];
      }
    }
  }

  /** With weights that are not negative, a round never lowers a score. */
  lemma MergeNeverLowers(arms: Arms, more: Arms, arms': Arms, weights: seq<real>, k: nat, id: Id)
    requires Fits(arms, more) && Extended(arms, more, arms')
    requires |arms'| <= |weights| && forall a :: 0 <= a < |arms'| ==> weights[a] >= 0.0
    ensures |arms| <= |arms'| && Score(arms, weights, k, id) <= Score(arms', weights, k, id)
  {
    ExtendedGrows(arms, more, arms');
    ScoreRises(arms, arms', weights, k, id);
  }

  /** A threshold never turns a candidate away that it let through before. */
  ghost predicate Admitting(weights: seq<real>, threshold: Option<real>)
  {
    threshold.None? || forall a :: 0 <= a < |weights| ==> weights[a] >= 0.0
  }

  /** Then, and without a threshold in any case, a round costs no candidate its eligibility. */
  lemma StaysEligible(arms: Arms, more: Arms, arms': Arms, weights: seq<real>, threshold: Option<real>, k: nat, id: Id)
    requires Fits(arms, more) && Extended(arms, more, arms') && |arms| <= |weights| && |arms'| <= |weights|
    requires Admitting(weights, threshold) && Eligible(arms, weights, threshold, k, id)
    ensures Eligible(arms', weights, threshold, k, id)
  {
    ExtendedGrows(arms, more, arms');
    if threshold.Some? {
      MergeNeverLowers(arms, more, arms', weights, k, id);
    }
  }
}

/** The filter that keeps saturated groups out of the next fetch round. */
module GroupExclusion {
  import opened Prelude
  import opened FilterTree
  import opened FilterConvert

  /** What one round found full: some group values, in any order, and perhaps the group without a value. */
  datatype Saturation = Saturation(values: seq<Value>, nulls: bool)

  function ExcludeAll(field: string, values: seq<Value>): (ns: seq<Node>)
    ensures |ns| == |values|
    ensures forall i :: 0 <= i < |ns| ==> ns[i] == Not(Leaf(field, Eq, Some(values[i])))
  {
    if values == [] then [] else [Not(Leaf(field, Eq, Some(values[0])))] + ExcludeAll(field, values[1..])
  }

  function Exclude(existing: Option<Node>, field: string, s: Saturation): Option<Node>
  {
    var exclusions := ExcludeAll(field, s.values) + if s.nulls then [Not(Leaf(field, IsNull, None))] else [];
    if exclusions == [] then existing
    else
      var list := exclusions + if existing.Some? then [existing.value] else [];
      if |list| == 1 then Some(list[0]) else Some(All(list))
  }

  /** The filter after any number of rounds. */
  function ExcludeRounds(existing: Option<Node>, field: string, rounds: seq<Saturation>): Option<Node>
  {
    if rounds == [] then existing
    else Exclude(ExcludeRounds(existing, field, rounds[..|rounds| - 1]), field, rounds[|rounds| - 1])
  }

  // ------------------------------------------------------------------ what the database then accepts

  predicate Translates(n: Option<Node>, indexes: seq<Index>, instant: string -> Option<int>)
  {
    n.Some? ==> Convert(n.value, indexes, instant).Ok?
  }

  /** No filter accepts everything. */
  predicate Admits(n: Option<Node>, indexes: seq<Index>, instant: string -> Option<int>, m: Metadata)
    requires Translates(n, indexes, instant)
  {
    n.Some? ==> Accepts(ConvertFilter(n.value, indexes, instant).value, m, instant)
  }

  /** Group values the database can match exactly. */
  predicate Matchable(v: Value)
  {
    v.Str? || v.Bool? || AsI64(v)
  }

  predicate SpareIn(field: string, s: Saturation, m: Metadata)
  {
    ValueOf(m, field) !in s.values && (s.nulls ==> !ValueOf(m, field).Null?)
  }

  lemma AdmitsHolds(n: Node, indexes: seq<Index>, instant: string -> Option<int>, m: Metadata)
    requires Convert(n, indexes, instant).Ok?
    ensures Admits(Some(n), indexes, instant, m) == Holds(Convert(n, indexes, instant).value, m, instant)
  {
    var c := Convert(n, indexes, instant).value;
    if !c.Sub? {
      assert Filter([c], [], []).must[0] == c;
    }
  }

  lemma ValueExcluded(field: string, v: Value, indexes: seq<Index>, instant: string -> Option<int>, m: Metadata)
    requires Matchable(v)
    ensures Convert(Not(Leaf(field, Eq, Some(v))), indexes, instant).Ok?
    ensures Holds(Convert(Not(Leaf(field, Eq, Some(v))), indexes, instant).value, m, instant) <==> ValueOf(m, field) != v
  {
    var c := Matches(field, MatchFor(Some(v)).value);
    assert Convert(Leaf(field, Eq, Some(v)), indexes, instant) == Ok(c);
    assert Convert(Not(Leaf(field, Eq, Some(v))), indexes, instant) == Ok(Sub(Filter([], [], [c])));
    NoneOf(c, m, instant);
  }

  lemma NullExcluded(field: string, indexes: seq<Index>, instant: string -> Option<int>, m: Metadata)
    ensures Convert(Not(Leaf(field, IsNull, None)), indexes, instant).Ok?
    ensures Holds(Convert(Not(Leaf(field, IsNull, None)), indexes, instant).value, m, instant) <==> !ValueOf(m, field).Null?
  {
    var c := Empty(field);
    assert Convert(Leaf(field, IsNull, None), indexes, instant) == Ok(c);
    assert Convert(Not(Leaf(field, IsNull, None)), indexes, instant) == Ok(Sub(Filter([], [], [c])));
    NoneOf(c, m, instant);
  }

  /** The list of exclusions of a round holds of a document exactly if its group has room. */
  lemma ExclusionsHold(field: string, s: Saturation, indexes: seq<Index>, instant: string -> Option<int>, m: Metadata)
    requires forall v :: v in s.values ==> Matchable(v)
    ensures var ns := ExcludeAll(field, s.values) + if s.nulls then [Not(Leaf(field, IsNull, None))] else [];
            && (forall i :: 0 <= i < |ns| ==> Convert(ns[i], indexes, instant).Ok?)
            && (SpareIn(field, s, m) <==> forall i :: 0 <= i < |ns| ==> Holds(Convert(ns[i], indexes, instant).value, m, instant))
  {
    var values := ExcludeAll(field, s.values);
    var ns := values + if s.nulls then [Not(Leaf(field, IsNull, None))] else [];
    forall i | 0 <= i < |values|
      ensures Convert(ns[i], indexes, instant).Ok?
      ensures Holds(Convert(ns[i], indexes, instant).value, m, instant) <==> ValueOf(m, field) != s.values[i]
    {
      ValueExcluded(field, s.values[i], indexes, instant, m);
    }
    NullExcluded(field, indexes, instant, m);
    if s.nulls {
      assert ns[|values|] == Not(Leaf(field, IsNull, None));
    }
  }

  lemma ExcludeExact(existing: Option<Node>, field: string, s: Saturation, indexes: seq<Index>, instant: string -> Option<int>, m: Metadata)
    requires Translates(existing, indexes, instant) && forall v :: v in s.values ==> Matchable(v)
    ensures Translates(Exclude(existing, field, s), indexes, instant)
    ensures Admits(Exclude(existing, field, s), indexes, instant, m) <==>
            Admits(existing, indexes, instant, m) && SpareIn(field, s, m)
  {
    var ns := ExcludeAll(field, s.values) + if s.nulls then [Not(Leaf(field, IsNull, None))] else [];
    ExclusionsHold(field, s, indexes, instant, m);
    if ns != [] {
      var list := ns + if existing.Some? then [existing.value] else [];
      assert forall i :: 0 <= i < |ns| ==> list[i] == ns[i];
      if existing.Some? {
        AdmitsHolds(existing.value, indexes, instant, m);
        assert list[|ns|] == existing.value;
      }
      AllHolds(list, indexes, instant, m);
      AdmitsHolds(if |list| == 1 then list[0] else All(list), indexes, instant, m);
    }
  }

  predicate AllMatchable(rounds: seq<Saturation>)
  {
    forall j, v :: 0 <= j < |rounds| && v in rounds[j].values ==> Matchable(v)
  }

  /** No round found the document's group full. */
  predicate Spared(field: string, rounds: seq<Saturation>, m: Metadata)
  {
    forall j :: 0 <= j < |rounds| ==> SpareIn(field, rounds[j], m)
  }

  lemma SparedPush(field: string, rounds: seq<Saturation>, m: Metadata)
    requires rounds != []
    ensures var n := |rounds| - 1; Spared(field, rounds, m) <==> Spared(field, rounds[..n], m) && SpareIn(field, rounds[n], m)
  {
    var n := |rounds| - 1;
    assert forall j :: 0 <= j < n ==> rounds[..n][j] == rounds[j];
  }

  /**
   * After any number of rounds the filter accepts precisely what the first one accepted, less the
   * groups that were ever full.
   */
  lemma {:induction false} ExclusionExact(existing: Option<Node>, field: string, rounds: seq<Saturation>,
                                          indexes: seq<Index>, instant: string -> Option<int>, m: Metadata)
    requires Translates(existing, indexes, instant) && AllMatchable(rounds)
    ensures Translates(ExcludeRounds(existing, field, rounds), indexes, instant)
    ensures Admits(ExcludeRounds(existing, field, rounds), indexes, instant, m) <==>
            Admits(existing, indexes, instant, m) && Spared(field, rounds, m)
    decreases |rounds|
  {
    if rounds != [] {
      var n := |rounds| - 1;
      ExclusionExact(existing, field, rounds[..n], indexes, instant, m);
      ExcludeExact(ExcludeRounds(existing, field, rounds[..n]), field, rounds[n], indexes, instant, m);
      SparedPush(field, rounds, m);
    }
  }

  /** One excluded value is excluded exactly, on all documents, if and only if the database can match it. */
  lemma ValueExactlyExcluded(field: string, v: Value, indexes: seq<Index>, instant: string -> Option<int>)
    requires !v.Null?
    ensures Convert(Not(Leaf(field, Eq, Some(v))), indexes, instant).Ok?
    ensures (forall m: Metadata ::
               Holds(Convert(Not(Leaf(field, Eq, Some(v))), indexes, instant).value, m, instant) <==> ValueOf(m, field) != v)
            <==> Matchable(v)
  {
    var c := Matches(field, MatchFor(Some(v)).value);
    assert Convert(Leaf(field, Eq, Some(v)), indexes, instant) == Ok(c);
    assert Convert(Not(Leaf(field, Eq, Some(v))), indexes, instant) == Ok(Sub(Filter([], [], [c])));
    if Matchable(v) {
      forall m: Metadata
        ensures Holds(Convert(Not(Leaf(field, Eq, Some(v))), indexes, instant).value, m, instant) <==> ValueOf(m, field) != v
      {
        ValueExcluded(field, v, indexes, instant, m);
      }
    } else {
      var m: Metadata := map[field := v];
      NoneOf(c, m, instant);
      assert Holds(Convert(Not(Leaf(field, Eq, Some(v))), indexes, instant).value, m, instant) && ValueOf(m, field) == v;
    }
  }
}

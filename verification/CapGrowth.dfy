/** More candidates never leave a capped search with fewer results. */
module CapGrowth {
  import opened Prelude
  import opened Sums
  import opened RankFusion
  import opened GroupCap

  predicate Lists(items: seq<(Id, real)>, id: Id)
  {
    exists i :: 0 <= i < |items| && items[i].0 == id
  }

  predicate IdsDiffer(items: seq<(Id, real)>)
  {
    forall i, j :: 0 <= i < j < |items| ==> items[i].0 != items[j].0
  }

  /** Every id of the first list is in the second. */
  ghost predicate IncludesIds(items: seq<(Id, real)>, items': seq<(Id, real)>)
  {
    forall i :: 0 <= i < |items| ==> Lists(items', items[i].0)
  }

  lemma {:induction false} CountConcat(a: seq<(Id, real)>, b: seq<(Id, real)>, group: Grouping, g: Group)
    ensures CountOf(a + b, group, g) == CountOf(a, group, g) + CountOf(b, group, g)
  {
    if b == [] {
      assert a + b == a;
    } else {
      CountConcat(a, b[..|b| - 1], group, g);
      assert (a + b)[..|a + b| - 1] == a + b[..|b| - 1];
    }
  }

  lemma CountDropped(items: seq<(Id, real)>, i: nat, group: Grouping, g: Group)
    requires i < |items|
    ensures CountOf(items, group, g) == CountOf(Without(items, i), group, g) + if group(items[i].0) == g then 1 else 0
  {
    CountConcat(items[..i], items[i + 1..], group, g);
    CountConcat(items[..i + 1], items[i + 1..], group, g);
    assert items == items[..i + 1] + items[i + 1..] && items[..i + 1][..i] == items[..i];
  }

  lemma StillListed(items: seq<(Id, real)>, i: nat, id: Id)
    requires i < |items| && Lists(items, id) && id != items[i].0
    ensures Lists(Without(items, i), id)
  {
    var j :| 0 <= j < |items| && items[j].0 == id;
    assert Without(items, i)[if j < i then j else j - 1] == items[j];
  }

  lemma {:induction false} CountRises(items: seq<(Id, real)>, items': seq<(Id, real)>, group: Grouping, g: Group)
    requires IdsDiffer(items) && IncludesIds(items, items')
    ensures CountOf(items, group, g) <= CountOf(items', group, g)
    decreases |items|
  {
    if items != [] {
      var n := |items| - 1;
      assert Lists(items', items[n].0);
      var j :| 0 <= j < |items'| && items'[j].0 == items[n].0;
      forall i | 0 <= i < n ensures Lists(Without(items', j), items[..n][i].0) {
        StillListed(items', j, items[i].0);
      }
      CountRises(items[..n], Without(items', j), group, g);
      CountDropped(items', j, group, g);
    }
  }

  lemma {:induction false} TotalDropped(gs: seq<Group>, i: nat, f: Group -> nat)
    requires i < |gs|
    ensures Total(gs, f) == Total(Without(gs, i), f) + f(gs[i])
  {
    var n := |gs| - 1;
    if i == n {
      assert Without(gs, i) == gs[..n];
    } else {
      TotalDropped(gs[..n], i, f);
      assert Without(gs, i) == Without(gs[..n], i) + [gs[n]];
      TotalPush(Without(gs[..n], i), gs[n], f);
    }
  }

  lemma {:induction false} TotalRises(gs: seq<Group>, hs: seq<Group>, f: Group -> nat, h: Group -> nat)
    requires Distinct(gs) && forall i :: 0 <= i < |gs| ==> gs[i] in hs && f(gs[i]) <= h(gs[i])
    ensures Total(gs, f) <= Total(hs, h)
    decreases |gs|
  {
    if gs != [] {
      var n := |gs| - 1;
      assert gs[n] in hs;
      var j :| 0 <= j < |hs| && hs[j] == gs[n];
      forall i | 0 <= i < n ensures gs[..n][i] in Without(hs, j) {
        assert gs[i] in hs && gs[i] != gs[n];
        var q :| 0 <= q < |hs| && hs[q] == gs[i];
        assert Without(hs, j)[if q < j then q else q - 1] == gs[i];
      }
      TotalRises(gs[..n], Without(hs, j), f, h);
      TotalDropped(hs, j, h);
    }
  }

  /** The capped total depends on which ids are there, not on their order or scores, and grows with them. */
  lemma CapTotalRises(items: seq<(Id, real)>, items': seq<(Id, real)>, group: Grouping, groupMax: nat)
    requires IdsDiffer(items) && IncludesIds(items, items')
    ensures CapTotal(items, group, groupMax) <= CapTotal(items', group, groupMax)
  {
    var gs, hs := GroupsOf(items, group), GroupsOf(items', group);
    var f, h := CapOf(items, group, groupMax), CapOf(items', group, groupMax);
    GroupsDistinct(items, group);
    forall i | 0 <= i < |gs| ensures gs[i] in hs && f(gs[i]) <= h(gs[i]) {
      CountZero(items, group, gs[i]);
      CountRises(items, items', group, gs[i]);
      CountZero(items', group, gs[i]);
    }
    TotalRises(gs, hs, f, h);
  }

  lemma {:induction false} SameGrouping(items: seq<(Id, real)>, group: Grouping, group': Grouping, g: Group)
    requires forall i :: 0 <= i < |items| ==> group(items[i].0) == group'(items[i].0)
    ensures CountOf(items, group, g) == CountOf(items, group', g) && GroupsOf(items, group) == GroupsOf(items, group')
  {
    if items != [] {
      SameGrouping(items[..|items| - 1], group, group', g);
    }
  }

  lemma CapTotalSame(items: seq<(Id, real)>, group: Grouping, group': Grouping, groupMax: nat)
    requires forall i :: 0 <= i < |items| ==> group(items[i].0) == group'(items[i].0)
    ensures CapTotal(items, group, groupMax) == CapTotal(items, group', groupMax)
  {
    SameGrouping(items, group, group', None);
    var gs := GroupsOf(items, group);
    var f, h := CapOf(items, group, groupMax), CapOf(items, group', groupMax);
    forall i | 0 <= i < |gs| ensures f(gs[i]) == h(gs[i]) {
      SameGrouping(items, group, group', gs[i]);
    }
    TotalSame(gs, f, h);
  }
}

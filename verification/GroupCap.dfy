/** At most `groupMax` results per value of the group field. */
module GroupCap {
  import opened Prelude
  import opened FilterTree
  import opened RankFusion

  /** The value of the group field, absent for documents without one. */
  type Group = Option<Value>

  type Grouping = Id -> Group

  function CountOf(items: seq<(Id, real)>, group: Grouping, g: Group): nat
  {
    if items == [] then 0
    else CountOf(items[..|items| - 1], group, g) + if group(items[|items| - 1].0) == g then 1 else 0
  }

  /** Walking in rank order, an item stays if its group is not full yet. */
  function Kept(items: seq<(Id, real)>, group: Grouping, groupMax: nat): (r: seq<(Id, real)>)
    ensures |r| <= |items|
  {
    if items == [] then []
    else
      var n := |items| - 1;
      var kept := Kept(items[..n], group, groupMax);
      if CountOf(kept, group, group(items[n].0)) < groupMax then kept + [items[n]] else kept
  }

  function MinNat(a: nat, b: nat): nat
  {
    if a < b then a else b
  }

  lemma CountPush(items: seq<(Id, real)>, x: (Id, real), group: Grouping, g: Group)
    ensures CountOf(items + [x], group, g) == CountOf(items, group, g) + if group(x.0) == g then 1 else 0
  {
    assert (items + [x])[..|items|] == items;
  }

  lemma KeptPush(items: seq<(Id, real)>, x: (Id, real), group: Grouping, groupMax: nat)
    ensures Kept(items + [x], group, groupMax) ==
            if CountOf(Kept(items, group, groupMax), group, group(x.0)) < groupMax
            then Kept(items, group, groupMax) + [x] else Kept(items, group, groupMax)
  {
    assert (items + [x])[..|items|] == items;
  }

  /** Each group fills up to the cap and no further. */
  lemma {:induction false} KeptCount(items: seq<(Id, real)>, group: Grouping, groupMax: nat, g: Group)
    ensures CountOf(Kept(items, group, groupMax), group, g) == MinNat(groupMax, CountOf(items, group, g))
  {
    if items != [] {
      var n := |items| - 1;
      KeptCount(items[..n], group, groupMax, g);
      CountPush(Kept(items[..n], group, groupMax), items[n], group, g);
    }
  }

  /** A longer walk only adds at the end. */
  lemma {:induction false} KeptPrefix(items: seq<(Id, real)>, more: seq<(Id, real)>, group: Grouping, groupMax: nat)
    ensures Kept(items, group, groupMax) <= Kept(items + more, group, groupMax)
    decreases |more|
  {
    if more == [] {
      assert items + more == items;
    } else {
      var m := |more| - 1;
      KeptPrefix(items, more[..m], group, groupMax);
      KeptPush(items + more[..m], more[m], group, groupMax);
      assert items + more == items + more[..m] + [more[m]];
    }
  }

  // ------------------------------------------------------------------ how many are kept

  function Total(gs: seq<Group>, f: Group -> nat): nat
  {
    if gs == [] then 0 else Total(gs[..|gs| - 1], f) + f(gs[|gs| - 1])
  }

  /** The groups of a list, by first occurrence. */
  function GroupsOf(items: seq<(Id, real)>, group: Grouping): seq<Group>
  {
    if items == [] then []
    else
      var n := |items| - 1;
      var gs := GroupsOf(items[..n], group);
      if group(items[n].0) in gs then gs else gs + [group(items[n].0)]
  }

  /** What each group may contribute. */
  function CapOf(items: seq<(Id, real)>, group: Grouping, groupMax: nat): Group -> nat
  {
    g => MinNat(groupMax, CountOf(items, group, g))
  }

  function CapTotal(items: seq<(Id, real)>, group: Grouping, groupMax: nat): nat
  {
    Total(GroupsOf(items, group), CapOf(items, group, groupMax))
  }

  lemma {:induction false} GroupsDistinct(items: seq<(Id, real)>, group: Grouping)
    ensures Distinct(GroupsOf(items, group))
  {
    if items != [] {
      var n := |items| - 1;
      var gs := GroupsOf(items[..n], group);
      GroupsDistinct(items[..n], group);
      assert forall i :: 0 <= i < |gs| ==> gs[i] in gs;
    }
  }

  lemma {:induction false} CountZero(items: seq<(Id, real)>, group: Grouping, g: Group)
    ensures CountOf(items, group, g) == 0 <==> g !in GroupsOf(items, group)
  {
    if items != [] {
      var n := |items| - 1;
      var gs, h := GroupsOf(items[..n], group), group(items[n].0);
      CountZero(items[..n], group, g);
      assert g in gs + [h] <==> g in gs || g == h;
    }
  }

  lemma {:induction false} TotalSame(gs: seq<Group>, f: Group -> nat, h: Group -> nat)
    requires forall i :: 0 <= i < |gs| ==> f(gs[i]) == h(gs[i])
    ensures Total(gs, f) == Total(gs, h)
  {
    if gs != [] {
      TotalSame(gs[..|gs| - 1], f, h);
    }
  }

  lemma {:induction false} TotalBump(gs: seq<Group>, i: nat, f: Group -> nat, h: Group -> nat)
    requires i < |gs| && forall j :: 0 <= j < |gs| && j != i ==> f(gs[j]) == h(gs[j])
    ensures Total(gs, h) + f(gs[i]) == Total(gs, f) + h(gs[i])
  {
    var n := |gs| - 1;
    if i == n {
      TotalSame(gs[..n], f, h);
    } else {
      TotalBump(gs[..n], i, f, h);
    }
  }

  lemma CapPush(items: seq<(Id, real)>, x: (Id, real), group: Grouping, groupMax: nat, g: Group)
    ensures CapOf(items, group, groupMax)(g) == MinNat(groupMax, CountOf(items, group, g))
    ensures CapOf(items + [x], group, groupMax)(g) ==
            MinNat(groupMax, CountOf(items, group, g) + if group(x.0) == g then 1 else 0)
  {
    CountPush(items, x, group, g);
  }

  lemma CapTotalOld(items: seq<(Id, real)>, x: (Id, real), group: Grouping, groupMax: nat)
    requires group(x.0) in GroupsOf(items, group)
    ensures CapTotal(items + [x], group, groupMax) ==
            CapTotal(items, group, groupMax) + if CountOf(items, group, group(x.0)) < groupMax then 1 else 0
  {
    var g, gs := group(x.0), GroupsOf(items, group);
    GroupsPush(items, x, group);
    GroupsDistinct(items, group);
    var i :| 0 <= i < |gs| && gs[i] == g;
    forall j | 0 <= j < |gs| { CapPush(items, x, group, groupMax, gs[j]); }
    TotalBump(gs, i, CapOf(items, group, groupMax), CapOf(items + [x], group, groupMax));
  }

  lemma CapTotalNew(items: seq<(Id, real)>, x: (Id, real), group: Grouping, groupMax: nat)
    requires group(x.0) !in GroupsOf(items, group)
    ensures CapTotal(items + [x], group, groupMax) == CapTotal(items, group, groupMax) + MinNat(groupMax, 1)
  {
    var g, gs := group(x.0), GroupsOf(items, group);
    CountZero(items, group, g);
    CapPush(items, x, group, groupMax, g);
    forall j | 0 <= j < |gs| { CapPush(items, x, group, groupMax, gs[j]); }
    TotalSame(gs, CapOf(items, group, groupMax), CapOf(items + [x], group, groupMax));
    GroupsPush(items, x, group);
    TotalPush(gs, g, CapOf(items + [x], group, groupMax));
  }

  lemma GroupsPush(items: seq<(Id, real)>, x: (Id, real), group: Grouping)
    ensures GroupsOf(items + [x], group) ==
            if group(x.0) in GroupsOf(items, group) then GroupsOf(items, group) else GroupsOf(items, group) + [group(x.0)]
  {
    assert (items + [x])[..|items|] == items;
  }

  lemma TotalPush(gs: seq<Group>, g: Group, f: Group -> nat)
    ensures Total(gs + [g], f) == Total(gs, f) + f(g)
  {
    assert (gs + [g])[..|gs|] == gs;
  }

  /** The number kept is the sum over the groups of what each may contribute. */
  lemma {:induction false} KeptTotal(items: seq<(Id, real)>, group: Grouping, groupMax: nat)
    ensures |Kept(items, group, groupMax)| == CapTotal(items, group, groupMax)
  {
    if items != [] {
      var n := |items| - 1;
      var front, x := items[..n], items[n];
      var g := group(x.0);
      assert items == front + [x];
      KeptTotal(front, group, groupMax);
      KeptCount(front, group, groupMax, g);
      KeptPush(front, x, group, groupMax);
      if g in GroupsOf(front, group) {
        CapTotalOld(front, x, group, groupMax);
      } else {
        CountZero(front, group, g);
        CapTotalNew(front, x, group, groupMax);
      }
    }
  }

  // ------------------------------------------------------------------ the cap itself

  /** Which groups are full, the group without a value apart. */
  ghost predicate SaturationOf(selected: seq<(Id, real)>, group: Grouping, groupMax: nat, full: set<Value>, nullFull: bool)
  {
    && (forall v :: v in full <==> Some(v) in GroupsOf(selected, group) && groupMax <= CountOf(selected, group, Some(v)))
    && (nullFull <==> groupMax <= CountOf(selected, group, None))
  }

  method ApplyGroupCap(items: seq<(Id, real)>, group: Grouping, groupMax: nat, limit: nat)
    returns (selected: seq<(Id, real)>, full: set<Value>, nullFull: bool, exhausted: bool)
    ensures selected == Kept(items, group, groupMax)[..MinNat(limit, |Kept(items, group, groupMax)|)]
    ensures |selected| == MinNat(limit, CapTotal(items, group, groupMax))
    ensures SaturationOf(selected, group, groupMax, full, nullFull)
    ensures exhausted <==> |selected| < limit
  {
    var counts: map<Group, nat>;
    selected, counts := Select(items, group, groupMax, limit);
    KeptTotal(items, group, groupMax);
    exhausted := |selected| < limit;
    full := set g | g in counts && g.Some? && groupMax <= counts[g] :: g.value;
    nullFull := groupMax <= if None in counts then counts[None] else 0;
    forall v ensures v in full <==> Some(v) in GroupsOf(selected, group) && groupMax <= CountOf(selected, group, Some(v)) {
      assert v in full <==> Some(v) in counts && groupMax <= counts[Some(v)];
      CountZero(selected, group, Some(v));
    }
    CountZero(selected, group, None);
  }

  method Select(items: seq<(Id, real)>, group: Grouping, groupMax: nat, limit: nat)
    returns (selected: seq<(Id, real)>, counts: map<Group, nat>)
    ensures selected == Kept(items, group, groupMax)[..MinNat(limit, |Kept(items, group, groupMax)|)]
    ensures CountsOf(counts, selected, group)
  {
    selected, counts := [], map[];
    var i := 0;
    while i < |items| && |selected| < limit
      invariant 0 <= i <= |items| && |selected| <= limit && selected == Kept(items[..i], group, groupMax)
      invariant CountsOf(counts, selected, group)
    {
      assert items[..i + 1] == items[..i] + [items[i]];
      selected, counts := Consider(items[..i], selected, counts, items[i], group, groupMax);
      i := i + 1;
    }
    SelectDone(items, i, group, groupMax, limit);
  }

  lemma SelectDone(items: seq<(Id, real)>, i: nat, group: Grouping, groupMax: nat, limit: nat)
    requires i <= |items| && |Kept(items[..i], group, groupMax)| <= limit
    requires i == |items| || |Kept(items[..i], group, groupMax)| == limit
    ensures Kept(items[..i], group, groupMax) == Kept(items, group, groupMax)[..MinNat(limit, |Kept(items, group, groupMax)|)]
  {
    KeptPrefix(items[..i], items[i..], group, groupMax);
    assert items == items[..i] + items[i..] && (i == |items| ==> items[..i] == items);
  }

  ghost predicate CountsOf(counts: map<Group, nat>, selected: seq<(Id, real)>, group: Grouping)
  {
    forall g: Group :: CountOf(selected, group, g) == (if g in counts then counts[g] else 0) && (g in counts ==> counts[g] > 0)
  }

  method Consider(ghost seen: seq<(Id, real)>, selected: seq<(Id, real)>, counts: map<Group, nat>, x: (Id, real), group: Grouping, groupMax: nat)
    returns (selected': seq<(Id, real)>, counts': map<Group, nat>)
    requires CountsOf(counts, selected, group) && selected == Kept(seen, group, groupMax)
    ensures CountsOf(counts', selected', group) && selected' == Kept(seen + [x], group, groupMax)
    ensures |selected'| <= |selected| + 1
  {
    KeptPush(seen, x, group, groupMax);
    var g := group(x.0);
    var count := if g in counts then counts[g] else 0;
    if groupMax <= count {
      return selected, counts;
    }
    forall h: Group {
      CountPush(selected, x, group, h);
    }
    return selected + [x], counts[g := count + 1];
  }
}

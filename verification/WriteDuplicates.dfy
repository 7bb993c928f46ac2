/** What a write request with one id twice would do. */
module WriteDuplicates {
  import opened Prelude
  import opened WriteProtocol

  /** A request before it reads the store, with all its queue rows still there. */
  predicate Unread(u: Task)
  {
    u.Upsert? && |u.marks| == |u.items| && forall i :: 0 <= i < |u.marks| ==> u.marks[i].Kept?
  }

  /** The request after it read `store`; `revectorize` are the documents that need new vectors. */
  function Planned(u: Task, store: Store, revectorize: set<nat>): (p: Task)
    requires Unread(u)
    ensures p.Upsert? && p.items == u.items && p.collection == u.collection && |p.marks| == |p.items|
  {
    AfterRead(State(store, {}, map[], map[], map[]), u, revectorize)
  }

  predicate NeverLower(before: Store, after: Store)
  {
    forall k :: k in before ==> k in after && before[k].ts <= after[k].ts
  }

  /** Neither the patch nor the add takes a stored document back to an earlier timestamp. */
  predicate Steady(u: Task, store: Store, revectorize: set<nat>)
    requires Unread(u)
  {
    var p := Planned(u, store, revectorize);
    var patched := Write(store, p, PatchSet(p));
    NeverLower(store, patched) && NeverLower(patched, Write(patched, p, AddSet(p)))
  }

  predicate SameIdSameTime(items: seq<Item>)
  {
    forall i, j :: 0 <= i < |items| && 0 <= j < |items| && items[i].id == items[j].id ==> items[i].doc.ts == items[j].doc.ts
  }

  /** After a write a document is that of some chosen item, or untouched because no chosen item has it. */
  lemma {:induction false} Source(store: Store, u: Task, chosen: set<nat>, n: nat, k: DocKey) returns (i: Option<nat>)
    requires u.Upsert? && n <= |u.items|
    ensures i.Some? ==> i.value < n && i.value in chosen && KeyAt(u, i.value) == k
                        && Lookup(WriteItems(store, u, chosen, n), k) == Some(u.items[i.value].doc)
    ensures i.None? ==> Lookup(WriteItems(store, u, chosen, n), k) == Lookup(store, k)
                        && forall j: nat :: j < n && j in chosen ==> KeyAt(u, j) != k
  {
    if n == 0 {
      i := None;
    } else {
      i := Source(store, u, chosen, n - 1, k);
      if n - 1 in chosen && KeyAt(u, n - 1) == k {
        i := Some(n - 1);
      }
    }
  }

  lemma PatchIsNewer(u: Task, store: Store, revectorize: set<nat>, k: DocKey)
    requires Unread(u) && k in store
    ensures var p := Planned(u, store, revectorize);
            var patched := Write(store, p, PatchSet(p));
            k in patched && store[k].ts <= patched[k].ts
  {
    var p := Planned(u, store, revectorize);
    var i := Source(store, p, PatchSet(p), |p.items|, k);
  }

  lemma AddIsNewer(u: Task, store: Store, revectorize: set<nat>, k: DocKey)
    requires Unread(u) && SameIdSameTime(u.items)
    requires var p := Planned(u, store, revectorize); k in Write(store, p, PatchSet(p))
    ensures var p := Planned(u, store, revectorize);
            var patched := Write(store, p, PatchSet(p));
            var added := Write(patched, p, AddSet(p));
            k in added && patched[k].ts <= added[k].ts
  {
    var p := Planned(u, store, revectorize);
    var patched := Write(store, p, PatchSet(p));
    var i := Source(store, p, PatchSet(p), |p.items|, k);
    var j := Source(patched, p, AddSet(p), |p.items|, k);
    if j.Some? {
      assert p.marks[j.value] == MarkAfterRead(Lookup(store, k), u.items[j.value].doc, j.value in revectorize);
      if i.Some? {
        assert u.items[i.value].id == u.items[j.value].id;
      }
    }
  }

  lemma SteadyIfSame(u: Task, store: Store, revectorize: set<nat>)
    requires Unread(u) && SameIdSameTime(u.items)
    ensures Steady(u, store, revectorize)
  {
    var p := Planned(u, store, revectorize);
    forall k | k in store { PatchIsNewer(u, store, revectorize, k); }
    forall k | k in Write(store, p, PatchSet(p)) { AddIsNewer(u, store, revectorize, k); }
  }

  /** An older copy that is vectorized overwrites a newer copy that was patched. */
  lemma OlderCopyWins(u: Task, i: nat, j: nat) returns (store: Store, revectorize: set<nat>)
    requires Unread(u) && i < |u.items| && j < |u.items|
    requires u.items[i].id == u.items[j].id && u.items[i].doc.ts < u.items[j].doc.ts
    ensures !Steady(u, store, revectorize)
  {
    var k, top := KeyAt(u, i), u.items[j].doc.ts;
    store := map[k := Doc(u.items[i].doc.ts - 1, 0)];
    revectorize := set x: nat | x < |u.items| && u.items[x].doc.ts < top;
    var p := Planned(u, store, revectorize);
    var patched := Write(store, p, PatchSet(p));
    assert p.marks[j].Patch? && p.marks[i].Vectorize? && KeyAt(p, i) == KeyAt(p, j) == k;
    var x := Source(store, p, PatchSet(p), |p.items|, k);
    var y := Source(patched, p, AddSet(p), |p.items|, k);
    assert x.Some? && top <= patched[k].ts;
    assert y.Some? && Write(patched, p, AddSet(p))[k].ts < top;
  }

  /**
    A request lowers no stored timestamp, for any store and any choice of what needs new vectors,
    if and only if items with the same id have the same timestamp.
    */
  lemma DuplicatesExactly(u: Task)
    requires Unread(u)
    ensures (forall store: Store, revectorize: set<nat> :: Steady(u, store, revectorize)) <==> SameIdSameTime(u.items)
  {
    if SameIdSameTime(u.items) {
      forall store: Store, revectorize: set<nat> ensures Steady(u, store, revectorize) {
        SteadyIfSame(u, store, revectorize);
      }
    } else {
      var i, j :| 0 <= i < |u.items| && 0 <= j < |u.items| && u.items[i].id == u.items[j].id && u.items[i].doc.ts != u.items[j].doc.ts;
      var store, revectorize;
      if u.items[i].doc.ts < u.items[j].doc.ts {
        store, revectorize := OlderCopyWins(u, i, j);
      } else {
        store, revectorize := OlderCopyWins(u, j, i);
      }
      assert !Steady(u, store, revectorize);
    }
  }
}

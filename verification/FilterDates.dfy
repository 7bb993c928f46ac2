/** Exactly when a leaf means the same in memory and in the database, dates included. */
module FilterDates {
  import opened Prelude
  import opened FilterTree
  import opened FilterConvert
  import opened DateTexts
  import Lex

  // ------------------------------------------------------------------ on one document

  /** The translation of an ordered comparison with the date `b` reads this document as memory does. */
  predicate DateAgrees(key: string, op: Op, b: string, indexes: seq<Index>, instant: string -> Option<int>, m: Metadata)
  {
    var c := ConvertLeaf(key, op, Some(Str(b)), indexes, instant);
    c.Ok? && Holds(c.value, m, instant) == EvalLeaf(key, op, Some(Str(b)), m)
  }

  ghost predicate AllOrdersAgree(key: string, b: string, indexes: seq<Index>, instant: string -> Option<int>, m: Metadata)
  {
    forall op: Op :: Ordered(op) ==> DateAgrees(key, op, b, indexes, instant, m)
  }

  lemma Compared(a: string, b: string)
    ensures Lex.Less(b, a) <==> !Lex.Less(a, b) && a != b
  {
    Lex.Trichotomy(a, b);
    Lex.Irreflexive(a);
    if Lex.Less(a, b) {
      Lex.Asymmetric(a, b);
    }
  }

  /** The four comparisons with a date agree on a document iff its text, if it has one, is a date ordered alike. */
  lemma DateOrderExactly(key: string, b: string, indexes: seq<Index>, instant: string -> Option<int>, m: Metadata)
    requires IsDatetime(indexes, key) && instant(b).Some?
    ensures AllOrdersAgree(key, b, indexes, instant, m) <==> DatedAlike(m, key, b, instant)
  {
    if DatedAlike(m, key, b, instant) {
      forall op: Op | Ordered(op) ensures DateAgrees(key, op, b, indexes, instant, m) {
        LeafAgrees(key, op, Some(Str(b)), indexes, instant, m);
      }
    } else {
      var a := m[key].s;
      Compared(a, b);
      assert !(DateAgrees(key, Lt, b, indexes, instant, m) && DateAgrees(key, Gt, b, indexes, instant, m)
               && DateAgrees(key, Lte, b, indexes, instant, m));
    }
  }

  /** For texts in the two plain forms: they agree unless one is a day and the other its midnight. */
  lemma PlainDatesExactly(key: string, a: Moment, b: Moment, indexes: seq<Index>, instant: string -> Option<int>, m: Metadata)
    requires IsDatetime(indexes, key) && Valid(a) && Valid(b) && key in m && m[key] == Str(Text(a))
    requires instant(Text(a)) == Some(Seconds(a)) && instant(Text(b)) == Some(Seconds(b))
    ensures AllOrdersAgree(key, Text(b), indexes, instant, m) <==> (Seconds(a) == Seconds(b) ==> a.Day? == b.Day?)
  {
    DateOrderExactly(key, Text(b), indexes, instant, m);
    TextsOrdered(a, b);
    TextsOrdered(b, a);
  }

  // ------------------------------------------------------------------ on all documents

  ghost predicate AgreesEverywhere(key: string, op: Op, value: Option<Value>, indexes: seq<Index>, instant: string -> Option<int>)
    requires ConvertLeaf(key, op, value, indexes, instant).Ok?
  {
    forall m: Metadata ::
      Holds(ConvertLeaf(key, op, value, indexes, instant).value, m, instant) == EvalLeaf(key, op, value, m)
  }

  /** If the document has the key, it holds a date. */
  predicate Dated(m: Metadata, key: string, instant: string -> Option<int>)
  {
    key in m ==> m[key].Str? && instant(m[key].s).Some?
  }

  /** The two readings agree on every document that holds dates under the key. */
  ghost predicate AgreesOnDates(key: string, op: Op, value: Option<Value>, indexes: seq<Index>, instant: string -> Option<int>)
    requires ConvertLeaf(key, op, value, indexes, instant).Ok?
  {
    forall m: Metadata :: Dated(m, key, instant) ==>
      Holds(ConvertLeaf(key, op, value, indexes, instant).value, m, instant) == EvalLeaf(key, op, value, m)
  }

  /** A twin of the date in the filter is read differently. */
  lemma TwinDisagrees(key: string, op: Op, b: string, indexes: seq<Index>, instant: string -> Option<int>) returns (m: Metadata)
    requires Ordered(op) && IsDatetime(indexes, key) && instant(b).Some? && HasTwins(instant, b)
    ensures Dated(m, key, instant) && !DateAgrees(key, op, b, indexes, instant, m)
  {
    var a: string;
    if op.Lt? || op.Gte? {
      a :| Lex.Less(a, b) && instant(a) == instant(b);
    } else {
      a :| Lex.Less(b, a) && instant(a) == instant(b);
      Lex.Asymmetric(b, a);
      Lex.Irreflexive(b);
    }
    m := map[key := Str(a)];
  }

  /**
    The two readings of a parsed leaf agree on all documents iff it is no null test, no equality with a
    fraction and no ordered comparison of a date key.
    */
  lemma LeafAgreesExactly(key: string, op: Op, value: Option<Value>, indexes: seq<Index>, instant: string -> Option<int>)
    requires LeafForm(Leaf(key, op, value)) && ConvertLeaf(key, op, value, indexes, instant).Ok?
    requires Ordered(op) && IsDatetime(indexes, key) ==> HasTwins(instant, value.value.s)
    ensures AgreesEverywhere(key, op, value, indexes, instant) <==>
            Agreeing(op, value) && !(Ordered(op) && IsDatetime(indexes, key))
  {
    if Ordered(op) && IsDatetime(indexes, key) {
      var m := TwinDisagrees(key, op, value.value.s, indexes, instant);
      assert value == Some(Str(value.value.s));
    } else if Agreeing(op, value) {
      forall m: Metadata
        ensures Holds(ConvertLeaf(key, op, value, indexes, instant).value, m, instant) == EvalLeaf(key, op, value, m)
      {
        LeafAgrees(key, op, value, indexes, instant, m);
      }
    } else if op.IsNull? {
      NullTestDisagrees(key, value, indexes, instant);
    } else {
      FractionDisagrees(key, op, value.value, indexes, instant);
    }
  }

  /** A null test is true of a document without the key in the database, and false in memory. */
  lemma NullTestDisagrees(key: string, value: Option<Value>, indexes: seq<Index>, instant: string -> Option<int>)
    ensures ConvertLeaf(key, IsNull, value, indexes, instant).Ok?
    ensures Holds(ConvertLeaf(key, IsNull, value, indexes, instant).value, map[], instant)
            && !EvalLeaf(key, IsNull, value, map[])
  {
  }

  /** On documents that hold dates, a leaf of a date key agrees iff it is neither a null test nor an ordered comparison. */
  lemma DateLeafAgreesExactly(key: string, op: Op, value: Option<Value>, indexes: seq<Index>, instant: string -> Option<int>)
    requires LeafForm(Leaf(key, op, value)) && ConvertLeaf(key, op, value, indexes, instant).Ok? && IsDatetime(indexes, key)
    requires Ordered(op) ==> HasTwins(instant, value.value.s)
    ensures AgreesOnDates(key, op, value, indexes, instant) <==> !op.IsNull? && !Ordered(op)
  {
    if Ordered(op) {
      var m := TwinDisagrees(key, op, value.value.s, indexes, instant);
      assert value == Some(Str(value.value.s));
    } else if op.IsNull? {
      NullTestDisagrees(key, value, indexes, instant);
      assert Dated(map[], key, instant);
    } else {
      forall m: Metadata | Dated(m, key, instant)
        ensures Holds(ConvertLeaf(key, op, value, indexes, instant).value, m, instant) == EvalLeaf(key, op, value, m)
      {
        EqualityOnDates(key, op, value, indexes, instant, m);
      }
    }
  }

  /** A fraction equals no date, before and after its translation. */
  lemma EqualityOnDates(key: string, op: Op, value: Option<Value>, indexes: seq<Index>, instant: string -> Option<int>, m: Metadata)
    requires LeafForm(Leaf(key, op, value)) && ConvertLeaf(key, op, value, indexes, instant).Ok?
    requires (op.Eq? || op.Neq?) && Dated(m, key, instant)
    ensures Holds(ConvertLeaf(key, op, value, indexes, instant).value, m, instant) == EvalLeaf(key, op, value, m)
  {
    if op.Neq? {
      NoneOf(Matches(key, MatchFor(value).value), m, instant);
    }
  }

  /** With the reader of the code, which ignores margins, nothing is asked of the date. */
  lemma ReaderLeafAgreesExactly(key: string, op: Op, value: Option<Value>, indexes: seq<Index>, read: string -> Option<int>)
    requires StartsVisibly(read)
    requires LeafForm(Leaf(key, op, value)) && ConvertLeaf(key, op, value, indexes, Reader(read)).Ok?
    ensures AgreesEverywhere(key, op, value, indexes, Reader(read)) <==>
            Agreeing(op, value) && !(Ordered(op) && IsDatetime(indexes, key))
    ensures IsDatetime(indexes, key) ==>
              (AgreesOnDates(key, op, value, indexes, Reader(read)) <==> !op.IsNull? && !Ordered(op))
  {
    if Ordered(op) && IsDatetime(indexes, key) {
      ReaderHasTwins(read, value.value.s);
    }
    LeafAgreesExactly(key, op, value, indexes, Reader(read));
    if IsDatetime(indexes, key) {
      DateLeafAgreesExactly(key, op, value, indexes, Reader(read));
    }
  }

  // ------------------------------------------------------------------ whole filters

  /** No leaf of the filter is a null test, an equality with a fraction or an ordered comparison of a date key. */
  predicate Portable(n: Node, indexes: seq<Index>)
    decreases n
  {
    && (n.key.Some? ==> Agreeing(n.op, n.value) && !(Ordered(n.op) && IsDatetime(indexes, n.key.value)))
    && (n.both.Items? ==> forall i :: 0 <= i < |n.both.list| ==> Portable(n.both.list[i], indexes))
    && (n.either.Items? ==> forall i :: 0 <= i < |n.either.list| ==> Portable(n.either.list[i], indexes))
    && (n.not.Some? ==> Portable(n.not.value, indexes))
  }

  lemma {:induction false} PortableAgrees(n: Node, indexes: seq<Index>, instant: string -> Option<int>, m: Metadata)
    requires Portable(n, indexes)
    ensures AllAgree(n, indexes, instant, m)
    decreases n
  {
    if n.both.Items? {
      forall i | 0 <= i < |n.both.list| { PortableAgrees(n.both.list[i], indexes, instant, m); }
    }
    if n.either.Items? {
      forall i | 0 <= i < |n.either.list| { PortableAgrees(n.either.list[i], indexes, instant, m); }
    }
    if n.not.Some? { PortableAgrees(n.not.value, indexes, instant, m); }
  }

  /** Such a filter accepts in the database, whatever the reader of dates, what the expression says of any document. */
  lemma PortableMeaning(e: OrExpr, indexes: seq<Index>, instant: string -> Option<int>, m: Metadata)
    requires BuildOr(e).Ok? && Portable(BuildOr(e).value, indexes)
    requires ConvertFilter(BuildOr(e).value, indexes, instant).Ok?
    ensures Accepts(ConvertFilter(BuildOr(e).value, indexes, instant).value, m, instant) <==> Means(e, m)
  {
    PortableAgrees(BuildOr(e).value, indexes, instant, m);
    ParsedMeaning(e, indexes, instant, m);
  }
}

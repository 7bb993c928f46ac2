/** The translation of metadata filters for the vector database, and the validation that runs before it. */
module FilterConvert {
  import opened Prelude
  import opened FilterTree
  import Lex

  // ------------------------------------------------------------------ database filters and how they are read

  datatype MatchValue = Keyword(s: string) | Boolean(b: bool) | Integer(i: int)

  datatype Bounds<T> = Bounds(gt: Option<T>, gte: Option<T>, lt: Option<T>, lte: Option<T>)

  datatype Condition =
    | Empty(key: string)
    | Matches(key: string, value: MatchValue)
    | InRange(key: string, range: Bounds<real>)
    | InDates(key: string, dates: Bounds<int>)
    | Sub(filter: Filter)

  datatype Filter = Filter(must: seq<Condition>, should: seq<Condition>, mustNot: seq<Condition>)

  predicate AsI64(v: Value)
  {
    v.Int? && I64_MIN <= v.i <= I64_MAX
  }

  predicate MatchesValue(v: Value, w: MatchValue)
  {
    match w
    case Keyword(s) => v == Str(s)
    case Boolean(b) => v == Bool(b)
    case Integer(i) => AsI64(v) && v.i == i
  }

  predicate InReals(x: real, b: Bounds<real>)
  {
    && (b.gt.Some? ==> x > b.gt.value) && (b.gte.Some? ==> x >= b.gte.value)
    && (b.lt.Some? ==> x < b.lt.value) && (b.lte.Some? ==> x <= b.lte.value)
  }

  predicate InInstants(t: int, b: Bounds<int>)
  {
    && (b.gt.Some? ==> t > b.gt.value) && (b.gte.Some? ==> t >= b.gte.value)
    && (b.lt.Some? ==> t < b.lt.value) && (b.lte.Some? ==> t <= b.lte.value)
  }

  /** `instant` reads a stored string as a point in time. */
  predicate Holds(c: Condition, m: Metadata, instant: string -> Option<int>)
    decreases c
  {
    match c
    case Empty(key) => ValueOf(m, key).Null?
    case Matches(key, w) => key in m && MatchesValue(m[key], w)
    case InRange(key, r) => key in m && Numeric(m[key]) && InReals(Number(m[key]), r)
    case InDates(key, r) => key in m && m[key].Str? && instant(m[key].s).Some? && InInstants(instant(m[key].s).value, r)
    case Sub(f) => Accepts(f, m, instant)
  }

  /** Every `must`, at least one `should` if there are any, no `must_not`. */
  predicate Accepts(f: Filter, m: Metadata, instant: string -> Option<int>)
    decreases f
  {
    && (forall i :: 0 <= i < |f.must| ==> Holds(f.must[i], m, instant))
    && (f.should != [] ==> exists i :: 0 <= i < |f.should| && Holds(f.should[i], m, instant))
    && (forall i :: 0 <= i < |f.mustNot| ==> !Holds(f.mustNot[i], m, instant))
  }

  // ------------------------------------------------------------------ translation

  datatype IndexType = StringIndex | IntegerIndex | FloatIndex | BooleanIndex | DatetimeIndex | OtherIndex

  datatype Index = Index(key: string, kind: IndexType)

  datatype ConvertError = UnsupportedValue | NotADate | NotANumber | UnsupportedOp

  predicate IsDatetime(indexes: seq<Index>, key: string)
  {
    exists i :: 0 <= i < |indexes| && indexes[i] == Index(key, DatetimeIndex)
  }

  function BoundsFor<T>(op: Op, x: T): Result<Bounds<T>, ConvertError>
  {
    match op
    case Gt => Ok(Bounds(Some(x), None, None, None))
    case Gte => Ok(Bounds(None, Some(x), None, None))
    case Lt => Ok(Bounds(None, None, Some(x), None))
    case Lte => Ok(Bounds(None, None, None, Some(x)))
    case _ => Err(UnsupportedOp)
  }

  /** A number that is not a 64-bit integer is matched as zero. */
  function MatchFor(value: Option<Value>): Result<MatchValue, ConvertError>
  {
    match value
    case Some(Str(s)) => Ok(Keyword(s))
    case Some(Bool(b)) => Ok(Boolean(b))
    case Some(Int(i)) => Ok(Integer(if AsI64(Int(i)) then i else 0))
    case Some(Float(_)) => Ok(Integer(0))
    case _ => Err(UnsupportedValue)
  }

  function ConvertLeaf(key: string, op: Op, value: Option<Value>, indexes: seq<Index>, instant: string -> Option<int>)
    : Result<Condition, ConvertError>
  {
    if op.IsNull? then Ok(Empty(key))
    else if op.Eq? || op.Neq? then
      var w := MatchFor(value);
      if w.Err? then Err(w.error)
      else if op.Neq? then Ok(Sub(Filter([], [], [Matches(key, w.value)])))
      else Ok(Matches(key, w.value))
    else if IsDatetime(indexes, key) then
      if !(value.Some? && value.value.Str?) || instant(value.value.s).None? then Err(NotADate)
      else
        var b := BoundsFor(op, instant(value.value.s).value);
        if b.Err? then Err(b.error) else Ok(InDates(key, b.value))
    else if !(value.Some? && Numeric(value.value)) then Err(NotANumber)
    else
      var b := BoundsFor(op, Number(value.value));
      if b.Err? then Err(b.error) else Ok(InRange(key, b.value))
  }

  function Convert(n: Node, indexes: seq<Index>, instant: string -> Option<int>): Result<Condition, ConvertError>
    decreases n
  {
    if n.key.Some? then ConvertLeaf(n.key.value, n.op, n.value, indexes, instant)
    else
      var must := if n.both.Items? then ConvertAll(n.both.list, indexes, instant) else Ok([]);
      if must.Err? then Err(must.error) else
      var should := if n.either.Items? then ConvertAll(n.either.list, indexes, instant) else Ok([]);
      if should.Err? then Err(should.error) else
      if n.not.None? then Ok(Sub(Filter(must.value, should.value, [])))
      else
        var operand := Convert(n.not.value, indexes, instant);
        if operand.Err? then Err(operand.error) else Ok(Sub(Filter(must.value, should.value, [operand.value])))
  }

  function ConvertAll(ns: seq<Node>, indexes: seq<Index>, instant: string -> Option<int>): (r: Result<seq<Condition>, ConvertError>)
    ensures r.Ok? ==> |r.value| == |ns|
    decreases ns
  {
    if ns == [] then Ok([])
    else
      var head := Convert(ns[0], indexes, instant);
      if head.Err? then Err(head.error) else
      var tail := ConvertAll(ns[1..], indexes, instant);
      if tail.Err? then tail else Ok([head.value] + tail.value)
  }

  /** The top of the translation: a nested filter is used as it is. */
  function ConvertFilter(n: Node, indexes: seq<Index>, instant: string -> Option<int>): Result<Filter, ConvertError>
  {
    var c := Convert(n, indexes, instant);
    if c.Err? then Err(c.error)
    else if c.value.Sub? then Ok(c.value.filter)
    else Ok(Filter([c.value], [], []))
  }

  lemma {:induction false} ConvertAllAt(ns: seq<Node>, indexes: seq<Index>, instant: string -> Option<int>)
    ensures ConvertAll(ns, indexes, instant).Ok? <==> forall i :: 0 <= i < |ns| ==> Convert(ns[i], indexes, instant).Ok?
    ensures ConvertAll(ns, indexes, instant).Ok? ==>
              forall i :: 0 <= i < |ns| ==> Convert(ns[i], indexes, instant) == Ok(ConvertAll(ns, indexes, instant).value[i])
  {
    if ns != [] {
      var rest := ns[1..];
      ConvertAllAt(rest, indexes, instant);
      assert forall i :: 1 <= i < |ns| ==> ns[i] == rest[i - 1];
      assert forall i :: 0 <= i < |rest| ==> rest[i] == ns[i + 1];
    }
  }

  // ------------------------------------------------------------------ the two readings agree

  /** A leaf whose translation keeps its meaning. */
  predicate Agreeing(op: Op, value: Option<Value>)
  {
    && !op.IsNull?
    && (op.Eq? || op.Neq? ==> value.Some? && !value.value.Float? && (value.value.Int? ==> AsI64(value.value)))
  }

  lemma NoneOf(c: Condition, m: Metadata, instant: string -> Option<int>)
    ensures Holds(Sub(Filter([], [], [c])), m, instant) == !Holds(c, m, instant)
  {
    var f := Filter([], [], [c]);
    assert f.mustNot[0] == c;
    assert Holds(Sub(f), m, instant) == Accepts(f, m, instant);
  }

  /** The two texts are dates, and they are ordered like the dates, in both directions. */
  predicate SameOrder(a: string, b: string, instant: string -> Option<int>)
  {
    && instant(a).Some? && instant(b).Some?
    && (instant(a).value < instant(b).value <==> Lex.Less(a, b))
    && (instant(b).value < instant(a).value <==> Lex.Less(b, a))
  }

  /** A text that the document has under the key is a date, ordered against `b` as text as it is in time. */
  predicate DatedAlike(m: Metadata, key: string, b: string, instant: string -> Option<int>)
  {
    key in m && m[key].Str? ==> SameOrder(m[key].s, b, instant)
  }

  /** What an ordered comparison of a date key needs of the document; other leaves need nothing. */
  predicate Fits(key: string, op: Op, value: Option<Value>, indexes: seq<Index>, instant: string -> Option<int>, m: Metadata)
  {
    Ordered(op) && IsDatetime(indexes, key) && value.Some? && value.value.Str? ==>
      DatedAlike(m, key, value.value.s, instant)
  }

  lemma LeafAgrees(key: string, op: Op, value: Option<Value>, indexes: seq<Index>, instant: string -> Option<int>, m: Metadata)
    requires ConvertLeaf(key, op, value, indexes, instant).Ok? && Agreeing(op, value)
    requires Fits(key, op, value, indexes, instant, m)
    ensures Holds(ConvertLeaf(key, op, value, indexes, instant).value, m, instant) == EvalLeaf(key, op, value, m)
  {
    if op.Neq? {
      NoneOf(Matches(key, MatchFor(value).value), m, instant);
    } else if Ordered(op) && IsDatetime(indexes, key) && key in m && m[key].Str? {
      Lex.Trichotomy(m[key].s, value.value.s);
      Lex.Irreflexive(m[key].s);
    }
  }

  /** Every leaf agrees on this document. */
  predicate AllAgree(n: Node, indexes: seq<Index>, instant: string -> Option<int>, m: Metadata)
    decreases n
  {
    && (n.key.Some? ==> Agreeing(n.op, n.value) && Fits(n.key.value, n.op, n.value, indexes, instant, m))
    && (n.both.Items? ==> forall i :: 0 <= i < |n.both.list| ==> AllAgree(n.both.list[i], indexes, instant, m))
    && (n.either.Items? ==> forall i :: 0 <= i < |n.either.list| ==> AllAgree(n.either.list[i], indexes, instant, m))
    && (n.not.Some? ==> AllAgree(n.not.value, indexes, instant, m))
  }

  /** A conjunction is translated part by part. */
  lemma AllHolds(list: seq<Node>, indexes: seq<Index>, instant: string -> Option<int>, m: Metadata)
    requires forall i :: 0 <= i < |list| ==> Convert(list[i], indexes, instant).Ok?
    ensures Convert(All(list), indexes, instant).Ok?
    ensures Holds(Convert(All(list), indexes, instant).value, m, instant) <==>
            forall i :: 0 <= i < |list| ==> Holds(Convert(list[i], indexes, instant).value, m, instant)
  {
    ConvertAllAt(list, indexes, instant);
    var f := Filter(ConvertAll(list, indexes, instant).value, [], []);
    assert Convert(All(list), indexes, instant) == Ok(Sub(f));
    assert Holds(Sub(f), m, instant) == Accepts(f, m, instant);
  }

  /** So is a disjunction of at least one part. */
  lemma AnyHolds(list: seq<Node>, indexes: seq<Index>, instant: string -> Option<int>, m: Metadata)
    requires list != [] && Convert(Any(list), indexes, instant).Ok?
    ensures forall i :: 0 <= i < |list| ==> Convert(list[i], indexes, instant).Ok?
    ensures Holds(Convert(Any(list), indexes, instant).value, m, instant) <==>
            exists i :: 0 <= i < |list| && Holds(Convert(list[i], indexes, instant).value, m, instant)
  {
    ConvertAllAt(list, indexes, instant);
    var f := Filter([], ConvertAll(list, indexes, instant).value, []);
    assert Convert(Any(list), indexes, instant) == Ok(Sub(f));
    assert Holds(Sub(f), m, instant) == Accepts(f, m, instant);
  }

  lemma NotHolds(n: Node, indexes: seq<Index>, instant: string -> Option<int>, m: Metadata)
    requires Convert(Not(n), indexes, instant).Ok?
    ensures Convert(n, indexes, instant).Ok?
    ensures Holds(Convert(Not(n), indexes, instant).value, m, instant) == !Holds(Convert(n, indexes, instant).value, m, instant)
  {
    NoneOf(Convert(n, indexes, instant).value, m, instant);
  }

  lemma AllParts(list: seq<Node>, indexes: seq<Index>, instant: string -> Option<int>)
    requires Convert(All(list), indexes, instant).Ok?
    ensures forall i :: 0 <= i < |list| ==> Convert(list[i], indexes, instant).Ok?
  {
    ConvertAllAt(list, indexes, instant);
  }

  lemma {:induction false} ConvertAgrees(n: Node, indexes: seq<Index>, instant: string -> Option<int>, m: Metadata)
    requires ParserForm(n) && AllAgree(n, indexes, instant, m) && Convert(n, indexes, instant).Ok?
    ensures Holds(Convert(n, indexes, instant).value, m, instant) == Eval(n, m)
    decreases n
  {
    if n.key.Some? {
      LeafAgrees(n.key.value, n.op, n.value, indexes, instant, m);
    } else if n.both.Items? {
      AllParts(n.both.list, indexes, instant);
      AllHolds(n.both.list, indexes, instant, m);
      forall i | 0 <= i < |n.both.list| {
        ConvertAgrees(n.both.list[i], indexes, instant, m);
      }
    } else if n.either.Items? {
      AnyHolds(n.either.list, indexes, instant, m);
      forall i | 0 <= i < |n.either.list| {
        ConvertAgrees(n.either.list[i], indexes, instant, m);
      }
    } else {
      NotHolds(n.not.value, indexes, instant, m);
      ConvertAgrees(n.not.value, indexes, instant, m);
    }
  }

  /** The translated filter accepts exactly the documents the filter matches in memory. */
  lemma TranslationKeepsMeaning(n: Node, indexes: seq<Index>, instant: string -> Option<int>, m: Metadata)
    requires ParserForm(n) && AllAgree(n, indexes, instant, m) && ConvertFilter(n, indexes, instant).Ok?
    ensures Accepts(ConvertFilter(n, indexes, instant).value, m, instant) <==> Eval(n, m)
  {
    ConvertAgrees(n, indexes, instant, m);
    var c := Convert(n, indexes, instant).value;
    if !c.Sub? {
      assert ConvertFilter(n, indexes, instant).value.must[0] == c;
    }
  }

  /** From the expression to the database: the translation accepts what the expression says. */
  lemma ParsedMeaning(e: OrExpr, indexes: seq<Index>, instant: string -> Option<int>, m: Metadata)
    requires BuildOr(e).Ok? && AllAgree(BuildOr(e).value, indexes, instant, m)
    requires ConvertFilter(BuildOr(e).value, indexes, instant).Ok?
    ensures Accepts(ConvertFilter(BuildOr(e).value, indexes, instant).value, m, instant) <==> Means(e, m)
  {
    BuildForm(e);
    BuildMeans(e, m);
    TranslationKeepsMeaning(BuildOr(e).value, indexes, instant, m);
  }

  /** Equality with a fraction is translated into a match with zero, which the fraction itself fails. */
  lemma FractionDisagrees(key: string, op: Op, v: Value, indexes: seq<Index>, instant: string -> Option<int>)
    requires (op.Eq? || op.Neq?) && v.Float?
    ensures ConvertLeaf(key, op, Some(v), indexes, instant).Ok?
    ensures Holds(ConvertLeaf(key, op, Some(v), indexes, instant).value, map[key := v], instant)
            != EvalLeaf(key, op, Some(v), map[key := v])
  {
    var m: Metadata := map[key := v];
    assert ValueOf(m, key) == v;
    assert !Holds(Matches(key, Integer(0)), m, instant);
    NoneOf(Matches(key, Integer(0)), m, instant);
  }
}

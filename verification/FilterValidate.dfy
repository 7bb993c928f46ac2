/** Validation of metadata filters against the collection's indexes: what it accepts can be translated. */
module FilterValidate {
  import opened Prelude
  import opened FilterTree
  import opened FilterConvert

  datatype ValidationError = NoIndexes | NotIndexed(key: string) | BadOperator(key: string) | BadValue(key: string) | BadIndexType(key: string)

  /** The indexed types by key; a later entry for a key replaces an earlier one. */
  function TypesOf(indexes: seq<Index>): (types: map<string, IndexType>)
    ensures forall key :: key in types <==> exists i :: 0 <= i < |indexes| && indexes[i].key == key
  {
    if indexes == [] then map[]
    else
      var n := |indexes| - 1;
      TypesOf(indexes[..n])[indexes[n].key := indexes[n].kind]
  }

  function ValidateLeaf(key: string, op: Op, value: Option<Value>, types: map<string, IndexType>, instant: string -> Option<int>)
    : Result<(), ValidationError>
  {
    if key !in types then Err(NotIndexed(key))
    else if op.IsNull? then Ok(())
    else
      match types[key]
      case StringIndex =>
        if !op.Eq? && !op.Neq? then Err(BadOperator(key)) else FailUnless(value.Some? && value.value.Str?, BadValue(key))
      case IntegerIndex => FailUnless(value.Some? && value.value.Int?, BadValue(key))
      case FloatIndex => FailUnless(value.Some? && Numeric(value.value), BadValue(key))
      case BooleanIndex =>
        if !op.Eq? && !op.Neq? then Err(BadOperator(key)) else FailUnless(value.Some? && value.value.Bool?, BadValue(key))
      case DatetimeIndex =>
        FailUnless(value.Some? && value.value.Str? && instant(value.value.s).Some?, BadValue(key))
      case OtherIndex => Err(BadIndexType(key))
  }

  function FailUnless(ok: bool, e: ValidationError): Result<(), ValidationError>
  {
    if ok then Ok(()) else Err(e)
  }

  /** A null test ends the check of its node; any other node's parts are all checked, in this order. */
  function ValidateNode(n: Node, types: map<string, IndexType>, instant: string -> Option<int>): Result<(), ValidationError>
    decreases n
  {
    var leaf := if n.key.Some? then ValidateLeaf(n.key.value, n.op, n.value, types, instant) else Ok(());
    if leaf.Err? || (n.key.Some? && n.op.IsNull?) then leaf else
    var both := if n.both.Items? then ValidateAll(n.both.list, types, instant) else Ok(());
    if both.Err? then both else
    var either := if n.either.Items? then ValidateAll(n.either.list, types, instant) else Ok(());
    if either.Err? then either else
    if n.not.Some? then ValidateNode(n.not.value, types, instant) else Ok(())
  }

  function ValidateAll(ns: seq<Node>, types: map<string, IndexType>, instant: string -> Option<int>): Result<(), ValidationError>
    decreases ns
  {
    if ns == [] then Ok(())
    else
      var head := ValidateNode(ns[0], types, instant);
      if head.Err? then head else ValidateAll(ns[1..], types, instant)
  }

  function Validate(n: Node, indexes: seq<Index>, instant: string -> Option<int>): Result<(), ValidationError>
  {
    if indexes == [] then Err(NoIndexes) else ValidateNode(n, TypesOf(indexes), instant)
  }

  // ------------------------------------------------------------------ validated filters convert

  /** No key that counts as a number was also declared as a date. */
  predicate Unconflicted(indexes: seq<Index>)
  {
    forall i :: 0 <= i < |indexes| && indexes[i].kind.DatetimeIndex? ==>
      var kind := TypesOf(indexes)[indexes[i].key];
      !kind.IntegerIndex? && !kind.FloatIndex?
  }

  predicate UniqueKeys(indexes: seq<Index>)
  {
    forall i, j :: 0 <= i < j < |indexes| ==> indexes[i].key != indexes[j].key
  }

  lemma {:induction false} UniqueTypes(indexes: seq<Index>, i: nat)
    requires UniqueKeys(indexes) && i < |indexes|
    ensures TypesOf(indexes)[indexes[i].key] == indexes[i].kind
  {
    var n := |indexes| - 1;
    if i < n {
      UniqueTypes(indexes[..n], i);
    }
  }

  lemma UniqueIsUnconflicted(indexes: seq<Index>)
    requires UniqueKeys(indexes)
    ensures Unconflicted(indexes)
  {
    forall i | 0 <= i < |indexes| ensures TypesOf(indexes)[indexes[i].key] == indexes[i].kind {
      UniqueTypes(indexes, i);
    }
  }

  lemma {:induction false} LastDateIsDate(indexes: seq<Index>, key: string)
    requires key in TypesOf(indexes) && TypesOf(indexes)[key].DatetimeIndex?
    ensures IsDatetime(indexes, key)
  {
    var n := |indexes| - 1;
    if indexes[n].key != key {
      LastDateIsDate(indexes[..n], key);
      var i :| 0 <= i < n && indexes[..n][i] == Index(key, DatetimeIndex);
      assert indexes[i] == Index(key, DatetimeIndex);
    } else {
      assert indexes[n] == Index(key, DatetimeIndex);
    }
  }

  lemma ValidLeafConverts(n: Node, indexes: seq<Index>, instant: string -> Option<int>)
    requires LeafForm(n) && Unconflicted(indexes) && ValidateLeaf(n.key.value, n.op, n.value, TypesOf(indexes), instant).Ok?
    ensures ConvertLeaf(n.key.value, n.op, n.value, indexes, instant).Ok?
  {
    var key := n.key.value;
    if Ordered(n.op) {
      if TypesOf(indexes)[key].DatetimeIndex? {
        LastDateIsDate(indexes, key);
      } else {
        NumberIsNoDate(indexes, key);
      }
    }
  }

  lemma NumberIsNoDate(indexes: seq<Index>, key: string)
    requires Unconflicted(indexes) && key in TypesOf(indexes)
    requires TypesOf(indexes)[key].IntegerIndex? || TypesOf(indexes)[key].FloatIndex?
    ensures !IsDatetime(indexes, key)
  {
  }

  lemma {:induction false} ValidAllConvert(ns: seq<Node>, indexes: seq<Index>, instant: string -> Option<int>)
    requires forall i :: 0 <= i < |ns| ==> ParserForm(ns[i])
    requires Unconflicted(indexes) && ValidateAll(ns, TypesOf(indexes), instant).Ok?
    ensures ConvertAll(ns, indexes, instant).Ok?
    decreases ns
  {
    if ns != [] {
      ValidNodeConverts(ns[0], indexes, instant);
      ValidAllConvert(ns[1..], indexes, instant);
    }
  }

  lemma {:induction false} ValidNodeConverts(n: Node, indexes: seq<Index>, instant: string -> Option<int>)
    requires ParserForm(n) && Unconflicted(indexes) && ValidateNode(n, TypesOf(indexes), instant).Ok?
    ensures Convert(n, indexes, instant).Ok?
    decreases n
  {
    if LeafForm(n) {
      ValidLeafConverts(n, indexes, instant);
    } else if n.both.Items? {
      ValidAllConvert(n.both.list, indexes, instant);
    } else if n.either.Items? {
      ValidAllConvert(n.either.list, indexes, instant);
    } else {
      ValidNodeConverts(n.not.value, indexes, instant);
    }
  }

  /** Every parsed expression that validation accepts is translated without error. */
  ghost predicate ValidatedConvert(indexes: seq<Index>, instant: string -> Option<int>)
  {
    forall e: OrExpr :: BuildOr(e).Ok? && Validate(BuildOr(e).value, indexes, instant).Ok? ==>
      ConvertFilter(BuildOr(e).value, indexes, instant).Ok?
  }

  /** That holds exactly for unconflicted indexes, whatever counts as a date. */
  lemma ValidatedFiltersConvert(indexes: seq<Index>, instant: string -> Option<int>)
    ensures ValidatedConvert(indexes, instant) <==> Unconflicted(indexes)
  {
    if Unconflicted(indexes) {
      forall e: OrExpr | BuildOr(e).Ok? && Validate(BuildOr(e).value, indexes, instant).Ok?
        ensures ConvertFilter(BuildOr(e).value, indexes, instant).Ok?
      {
        BuildForm(e);
        ValidNodeConverts(BuildOr(e).value, indexes, instant);
      }
    } else {
      var i :| 0 <= i < |indexes| && indexes[i].kind.DatetimeIndex? &&
                 (TypesOf(indexes)[indexes[i].key].IntegerIndex? || TypesOf(indexes)[indexes[i].key].FloatIndex?);
      var n := Leaf(indexes[i].key, Gt, Some(Int(1)));
      assert ParserForm(n);
      UnparseBuilds(n);
      assert indexes[i] == Index(indexes[i].key, DatetimeIndex);
      assert IsDatetime(indexes, indexes[i].key);
      assert Validate(BuildOr(Unparse(n)).value, indexes, instant).Ok?;
      assert ConvertFilter(BuildOr(Unparse(n)).value, indexes, instant).Err?;
    }
  }
}

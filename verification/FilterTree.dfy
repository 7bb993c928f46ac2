/** Metadata filters: the parse tree of the filter language, the filter tree built from it, and its in-memory reading. */
module FilterTree {
  import opened Prelude
  import Lex

  /** Scalar metadata.  An integer and a float are never equal, whatever their magnitude. */
  datatype Value = Null | Bool(b: bool) | Int(i: int) | Float(r: real) | Str(s: string)

  type Metadata = map<string, Value>

  /** `Unknown` stands for every other operator name and for a missing one. */
  datatype Op = Eq | Neq | Gt | Gte | Lt | Lte | IsNull | Unknown

  datatype Children = Absent | Items(list: seq<Node>)

  datatype Node = Node(key: Option<string>, op: Op, value: Option<Value>, both: Children, either: Children, not: Option<Node>)

  const I64_MIN: int := -0x8000_0000_0000_0000
  const I64_MAX: int := 0x7FFF_FFFF_FFFF_FFFF

  predicate Ordered(op: Op)
  {
    op.Gt? || op.Gte? || op.Lt? || op.Lte?
  }

  // ------------------------------------------------------------------ the three kinds of node the parser makes

  function Leaf(key: string, op: Op, value: Option<Value>): Node
  {
    Node(Some(key), op, value, Absent, Absent, None)
  }

  function All(list: seq<Node>): Node
  {
    Node(None, Unknown, None, Items(list), Absent, None)
  }

  function Any(list: seq<Node>): Node
  {
    Node(None, Unknown, None, Absent, Items(list), None)
  }

  function Not(node: Node): Node
  {
    Node(None, Unknown, None, Absent, Absent, Some(node))
  }

  // ------------------------------------------------------------------ parse trees

  /** The operator tokens of the language. */
  type CompareOp = op: Op | !op.IsNull? && !op.Unknown? witness Eq

  datatype OrExpr = OrExpr(first: AndExpr, rest: seq<AndExpr>)
  datatype AndExpr = AndExpr(first: NotExpr, rest: seq<NotExpr>)
  datatype NotExpr = Negated(operand: NotExpr) | Plain(atom: Atom)
  datatype Atom =
    | Paren(expr: OrExpr)
    | Compare(field: string, op: CompareOp, literal: Value)
    | TestNull(field: string)
    | TestNotNull(field: string)

  datatype ParseError = IntegerOutOfRange

  /** Only the integer token can fail to parse. */
  function BuildAtom(a: Atom): Result<Node, ParseError>
    decreases a
  {
    match a
    case Paren(e) => BuildOr(e)
    case Compare(field, op, literal) =>
      if literal.Int? && !(I64_MIN <= literal.i <= I64_MAX) then Err(IntegerOutOfRange)
      else Ok(Leaf(field, op, Some(literal)))
    case TestNull(field) => Ok(Leaf(field, IsNull, None))
    case TestNotNull(field) => Ok(Not(Leaf(field, IsNull, None)))
  }

  function BuildNot(e: NotExpr): Result<Node, ParseError>
    decreases e
  {
    match e
    case Negated(operand) =>
      var r := BuildNot(operand);
      if r.Ok? then Ok(Not(r.value)) else r
    case Plain(a) => BuildAtom(a)
  }

  function BuildNots(es: seq<NotExpr>): (r: Result<seq<Node>, ParseError>)
    ensures r.Ok? ==> |r.value| == |es|
    decreases es
  {
    if es == [] then Ok([])
    else
      var head := BuildNot(es[0]);
      if head.Err? then Err(head.error) else
      var tail := BuildNots(es[1..]);
      if tail.Err? then tail else Ok([head.value] + tail.value)
  }

  /** A conjunction of one is that one. */
  function BuildAnd(e: AndExpr): Result<Node, ParseError>
    decreases e
  {
    var head := BuildNot(e.first);
    if head.Err? then Err(head.error) else
    var tail := BuildNots(e.rest);
    if tail.Err? then Err(tail.error) else
    if tail.value == [] then Ok(head.value) else Ok(All([head.value] + tail.value))
  }

  function BuildAnds(es: seq<AndExpr>): (r: Result<seq<Node>, ParseError>)
    ensures r.Ok? ==> |r.value| == |es|
    decreases es
  {
    if es == [] then Ok([])
    else
      var head := BuildAnd(es[0]);
      if head.Err? then Err(head.error) else
      var tail := BuildAnds(es[1..]);
      if tail.Err? then tail else Ok([head.value] + tail.value)
  }

  function BuildOr(e: OrExpr): Result<Node, ParseError>
    decreases e
  {
    var head := BuildAnd(e.first);
    if head.Err? then Err(head.error) else
    var tail := BuildAnds(e.rest);
    if tail.Err? then Err(tail.error) else
    if tail.value == [] then Ok(head.value) else Ok(Any([head.value] + tail.value))
  }

  // ------------------------------------------------------------------ in-memory evaluation

  function ValueOf(m: Metadata, key: string): Value
  {
    if key in m then m[key] else Null
  }

  function Number(v: Value): real
    requires v.Int? || v.Float?
  {
    if v.Int? then v.i as real else v.r
  }

  predicate Numeric(v: Value)
  {
    v.Int? || v.Float?
  }

  predicate Compares(op: Op, less: bool, equal: bool)
  {
    match op
    case Gt => !less && !equal
    case Gte => !less
    case Lt => less
    case Lte => less || equal
    case _ => false
  }

  predicate CompareOrdered(v: Value, c: Value, op: Op)
  {
    if Numeric(v) && Numeric(c) then Compares(op, Number(v) < Number(c), Number(v) == Number(c))
    else if v.Str? && c.Str? then Compares(op, Lex.Less(v.s, c.s), v.s == c.s)
    else false
  }

  /** There is no null test here: it reads as false. */
  predicate EvalLeaf(key: string, op: Op, value: Option<Value>, m: Metadata)
  {
    var c := if value.Some? then value.value else Null;
    match op
    case Eq => ValueOf(m, key) == c
    case Neq => ValueOf(m, key) != c
    case IsNull => false
    case Unknown => false
    case _ => key in m && value.Some? && CompareOrdered(m[key], value.value, op)
  }

  predicate Eval(n: Node, m: Metadata)
    decreases n
  {
    if n.key.Some? then EvalLeaf(n.key.value, n.op, n.value, m)
    else if n.not.Some? then !Eval(n.not.value, m)
    else if n.both.Items? then forall i :: 0 <= i < |n.both.list| ==> Eval(n.both.list[i], m)
    else if n.either.Items? then exists i :: 0 <= i < |n.either.list| && Eval(n.either.list[i], m)
    else true
  }

  // ------------------------------------------------------------------ what a parse tree means

  predicate MeansAtom(a: Atom, m: Metadata)
    decreases a
  {
    match a
    case Paren(e) => Means(e, m)
    case Compare(field, op, literal) => EvalLeaf(field, op, Some(literal), m)
    case TestNull(field) => EvalLeaf(field, IsNull, None, m)
    case TestNotNull(field) => !EvalLeaf(field, IsNull, None, m)
  }

  predicate MeansNot(e: NotExpr, m: Metadata)
    decreases e
  {
    match e
    case Negated(operand) => !MeansNot(operand, m)
    case Plain(a) => MeansAtom(a, m)
  }

  predicate MeansAnd(e: AndExpr, m: Metadata)
    decreases e
  {
    MeansNot(e.first, m) && forall i :: 0 <= i < |e.rest| ==> MeansNot(e.rest[i], m)
  }

  /** NOT binds tighter than AND, AND tighter than OR. */
  predicate Means(e: OrExpr, m: Metadata)
    decreases e
  {
    MeansAnd(e.first, m) || exists i :: 0 <= i < |e.rest| && MeansAnd(e.rest[i], m)
  }

  lemma {:induction false} BuildAtomMeans(a: Atom, m: Metadata)
    requires BuildAtom(a).Ok?
    ensures Eval(BuildAtom(a).value, m) == MeansAtom(a, m)
    decreases a
  {
    if a.Paren? {
      BuildMeans(a.expr, m);
    }
  }

  lemma {:induction false} BuildNotMeans(e: NotExpr, m: Metadata)
    requires BuildNot(e).Ok?
    ensures Eval(BuildNot(e).value, m) == MeansNot(e, m)
    decreases e
  {
    match e
    case Negated(operand) => BuildNotMeans(operand, m);
    case Plain(a) => BuildAtomMeans(a, m);
  }

  lemma {:induction false} BuildNotsMeans(es: seq<NotExpr>, m: Metadata)
    requires BuildNots(es).Ok?
    ensures forall i :: 0 <= i < |es| ==> Eval(BuildNots(es).value[i], m) == MeansNot(es[i], m)
    decreases es
  {
    if es != [] {
      BuildNotMeans(es[0], m);
      BuildNotsMeans(es[1..], m);
      assert forall i :: 1 <= i < |es| ==> BuildNots(es).value[i] == BuildNots(es[1..]).value[i - 1] && es[i] == es[1..][i - 1];
    }
  }

  lemma {:induction false} BuildAndMeans(e: AndExpr, m: Metadata)
    requires BuildAnd(e).Ok?
    ensures Eval(BuildAnd(e).value, m) == MeansAnd(e, m)
    decreases e
  {
    BuildNotMeans(e.first, m);
    BuildNotsMeans(e.rest, m);
    var tail := BuildNots(e.rest).value;
    if tail != [] {
      var list := [BuildNot(e.first).value] + tail;
      assert BuildAnd(e).value == All(list);
      assert list[0] == BuildNot(e.first).value && forall i :: 1 <= i < |list| ==> list[i] == tail[i - 1];
      assert forall i :: 0 <= i < |tail| ==> list[i + 1] == tail[i];
    }
  }

  lemma {:induction false} BuildAndsMean(es: seq<AndExpr>, m: Metadata)
    requires BuildAnds(es).Ok?
    ensures forall i :: 0 <= i < |es| ==> Eval(BuildAnds(es).value[i], m) == MeansAnd(es[i], m)
    decreases es
  {
    if es != [] {
      BuildAndMeans(es[0], m);
      BuildAndsMean(es[1..], m);
      assert forall i :: 1 <= i < |es| ==> BuildAnds(es).value[i] == BuildAnds(es[1..]).value[i - 1] && es[i] == es[1..][i - 1];
    }
  }

  /** Building keeps the meaning: the tree evaluates as the expression reads. */
  lemma {:induction false} BuildMeans(e: OrExpr, m: Metadata)
    requires BuildOr(e).Ok?
    ensures Eval(BuildOr(e).value, m) == Means(e, m)
    decreases e
  {
    BuildAndMeans(e.first, m);
    BuildAndsMean(e.rest, m);
    var tail := BuildAnds(e.rest).value;
    if tail != [] {
      var list := [BuildAnd(e.first).value] + tail;
      assert BuildOr(e).value == Any(list);
      assert list[0] == BuildAnd(e.first).value && forall i :: 1 <= i < |list| ==> list[i] == tail[i - 1];
      assert forall i :: 0 <= i < |tail| ==> list[i + 1] == tail[i];
    }
  }

  // ------------------------------------------------------------------ which trees the parser makes

  predicate Parsable(value: Value)
  {
    value.Int? ==> I64_MIN <= value.i <= I64_MAX
  }

  predicate LeafForm(n: Node)
  {
    && n.key.Some? && n.both.Absent? && n.either.Absent? && n.not.None?
    && (if n.op.IsNull? then n.value.None? else !n.op.Unknown? && n.value.Some? && Parsable(n.value.value))
  }

  /** Leaves, negations, and conjunctions and disjunctions of at least two. */
  predicate ParserForm(n: Node)
    decreases n
  {
    || LeafForm(n)
    || (n.both.Items? && n == All(n.both.list) && |n.both.list| >= 2 && forall i :: 0 <= i < |n.both.list| ==> ParserForm(n.both.list[i]))
    || (n.either.Items? && n == Any(n.either.list) && |n.either.list| >= 2 && forall i :: 0 <= i < |n.either.list| ==> ParserForm(n.either.list[i]))
    || (n.not.Some? && n == Not(n.not.value) && ParserForm(n.not.value))
  }

  lemma {:induction false} BuildAtomForm(a: Atom)
    requires BuildAtom(a).Ok?
    ensures ParserForm(BuildAtom(a).value)
    decreases a
  {
    if a.Paren? {
      BuildForm(a.expr);
    } else if a.TestNotNull? {
      assert ParserForm(Leaf(a.field, IsNull, None));
    }
  }

  lemma {:induction false} BuildNotForm(e: NotExpr)
    requires BuildNot(e).Ok?
    ensures ParserForm(BuildNot(e).value)
    decreases e
  {
    match e
    case Negated(operand) => BuildNotForm(operand);
    case Plain(a) => BuildAtomForm(a);
  }

  lemma {:induction false} BuildNotsForm(es: seq<NotExpr>)
    requires BuildNots(es).Ok?
    ensures forall i :: 0 <= i < |es| ==> ParserForm(BuildNots(es).value[i])
    decreases es
  {
    if es != [] {
      BuildNotForm(es[0]);
      BuildNotsForm(es[1..]);
    }
  }

  lemma {:induction false} BuildAndForm(e: AndExpr)
    requires BuildAnd(e).Ok?
    ensures ParserForm(BuildAnd(e).value)
    decreases e
  {
    BuildNotForm(e.first);
    BuildNotsForm(e.rest);
    var tail := BuildNots(e.rest).value;
    if tail != [] {
      var list := [BuildNot(e.first).value] + tail;
      assert forall i :: 0 <= i < |list| ==> ParserForm(list[i]);
    }
  }

  lemma {:induction false} BuildAndsForm(es: seq<AndExpr>)
    requires BuildAnds(es).Ok?
    ensures forall i :: 0 <= i < |es| ==> ParserForm(BuildAnds(es).value[i])
    decreases es
  {
    if es != [] {
      BuildAndForm(es[0]);
      BuildAndsForm(es[1..]);
    }
  }

  lemma {:induction false} BuildForm(e: OrExpr)
    requires BuildOr(e).Ok?
    ensures ParserForm(BuildOr(e).value)
    decreases e
  {
    BuildAndForm(e.first);
    BuildAndsForm(e.rest);
    var tail := BuildAnds(e.rest).value;
    if tail != [] {
      var list := [BuildAnd(e.first).value] + tail;
      assert forall i :: 0 <= i < |list| ==> ParserForm(list[i]);
    }
  }

  // ------------------------------------------------------------------ and back

  function Just(a: Atom): OrExpr
  {
    OrExpr(AndExpr(Plain(a), []), [])
  }

  /** An expression for a tree: every operand in parentheses. */
  function Unparse(n: Node): OrExpr
    requires ParserForm(n)
    decreases n
  {
    if LeafForm(n) then
      if n.op.IsNull? then Just(TestNull(n.key.value)) else Just(Compare(n.key.value, n.op, n.value.value))
    else if n.both.Items? then
      OrExpr(AndExpr(Plain(Paren(Unparse(n.both.list[0]))), UnparseNots(n.both.list[1..])), [])
    else if n.either.Items? then
      OrExpr(AndExpr(Plain(Paren(Unparse(n.either.list[0]))), []), UnparseAnds(n.either.list[1..]))
    else
      OrExpr(AndExpr(Negated(Plain(Paren(Unparse(n.not.value)))), []), [])
  }

  function UnparseNots(ns: seq<Node>): (r: seq<NotExpr>)
    requires forall i :: 0 <= i < |ns| ==> ParserForm(ns[i])
    ensures |r| == |ns|
    decreases ns
  {
    if ns == [] then [] else [Plain(Paren(Unparse(ns[0])))] + UnparseNots(ns[1..])
  }

  function UnparseAnds(ns: seq<Node>): (r: seq<AndExpr>)
    requires forall i :: 0 <= i < |ns| ==> ParserForm(ns[i])
    ensures |r| == |ns|
    decreases ns
  {
    if ns == [] then [] else [AndExpr(Plain(Paren(Unparse(ns[0]))), [])] + UnparseAnds(ns[1..])
  }

  lemma {:induction false} UnparseNotsBuilds(ns: seq<Node>)
    requires forall i :: 0 <= i < |ns| ==> ParserForm(ns[i])
    ensures BuildNots(UnparseNots(ns)) == Ok(ns)
    decreases ns
  {
    if ns != [] {
      UnparseBuilds(ns[0]);
      UnparseNotsBuilds(ns[1..]);
      var es := UnparseNots(ns);
      assert es[1..] == UnparseNots(ns[1..]) && es[0] == Plain(Paren(Unparse(ns[0])));
      assert BuildNot(es[0]) == BuildAtom(Paren(Unparse(ns[0]))) == BuildOr(Unparse(ns[0]));
      assert ns == [ns[0]] + ns[1..];
    }
  }

  lemma {:induction false} UnparseAndsBuilds(ns: seq<Node>)
    requires forall i :: 0 <= i < |ns| ==> ParserForm(ns[i])
    ensures BuildAnds(UnparseAnds(ns)) == Ok(ns)
    decreases ns
  {
    if ns != [] {
      UnparseBuilds(ns[0]);
      UnparseAndsBuilds(ns[1..]);
      var es := UnparseAnds(ns);
      assert es[1..] == UnparseAnds(ns[1..]) && es[0] == AndExpr(Plain(Paren(Unparse(ns[0]))), []);
      ParenBuilds(Unparse(ns[0]));
      assert ns == [ns[0]] + ns[1..];
    }
  }

  lemma ParenBuilds(e: OrExpr)
    ensures BuildNot(Plain(Paren(e))) == BuildOr(e)
    ensures BuildAnd(AndExpr(Plain(Paren(e)), [])) == BuildOr(e)
  {
    assert BuildAtom(Paren(e)) == BuildOr(e);
    assert BuildNots([]) == Ok([]);
  }

  lemma JustBuilds(e: AndExpr)
    ensures BuildOr(OrExpr(e, [])) == BuildAnd(e)
  {
    assert BuildAnds([]) == Ok([]);
  }

  /** Round trip: the normal form is exactly what the parser can make. */
  lemma {:induction false} UnparseBuilds(n: Node)
    requires ParserForm(n)
    ensures BuildOr(Unparse(n)) == Ok(n)
    decreases n
  {
    JustBuilds(Unparse(n).first);
    assert BuildNots([]) == Ok([]);
    if LeafForm(n) {
      assert n == Leaf(n.key.value, n.op, n.value);
      assert BuildNot(Unparse(n).first.first) == BuildAtom(Unparse(n).first.first.atom) == Ok(n);
    } else if n.both.Items? {
      var list := n.both.list;
      UnparseBuilds(list[0]);
      ParenBuilds(Unparse(list[0]));
      UnparseNotsBuilds(list[1..]);
      assert list == [list[0]] + list[1..];
    } else if n.either.Items? {
      var list := n.either.list;
      UnparseBuilds(list[0]);
      ParenBuilds(Unparse(list[0]));
      UnparseAndsBuilds(list[1..]);
      assert list == [list[0]] + list[1..];
    } else {
      UnparseBuilds(n.not.value);
      ParenBuilds(Unparse(n.not.value));
    }
  }
}

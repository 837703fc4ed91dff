/** The meaning of expressions in three-valued logic: what the syntax means, what the built tree
    computes, and that they agree for every expression. */
module ExpressionMeaning {
  import opened Wrappers
  import opened Machine
  import opened Expressions

  // ----- three-valued meaning -----

  datatype Tri = T | F | N

  function Not3(a: Tri): Tri {
    match a case T => F case F => T case N => N
  }

  function Or3(a: Tri, b: Tri): Tri {
    if a == T || b == T then T else if a == F && b == F then F else N
  }

  function And3(a: Tri, b: Tri): Tri {
    if a == F || b == F then F else if a == T && b == T then T else N
  }

  /** NULL, a number, or any other value. */
  datatype Value = Null | Num(i: int) | Other(id: nat)

  function Of(a: Tri): Value {
    match a case T => Num(1) case F => Num(0) case N => Null
  }

  /** Whatever the connection, the row and the schema decide.  Comparing two values that are
      not NULL may still yield NULL: row values can have NULL parts. */
  datatype World = World(
    leaf: (LeafKind, Token) -> Value,
    dot: (Value, Value) -> Value,
    collate: (Value, Token) -> Value,
    cast: (Value, Token) -> Value,
    call: (Token, bool, seq<Value>) -> Value,
    vector: seq<Value> -> Value,
    binary: (BinOp, Value, Value) -> Value,
    same: (Value, Value) -> Tri,
    identical: (Value, Value) -> bool,
    atLeast: (Value, Value) -> Tri,
    isTrue: nat -> bool,
    prefix: (PrefixOp, Value) -> Value,
    rows: nat -> seq<Value>)

  function Truth(w: World, v: Value): Tri {
    match v
    case Null => N
    case Num(i) => if i != 0 then T else F
    case Other(id) => if w.isTrue(id) then T else F
  }

  function Eq(w: World, a: Value, b: Value): Tri {
    if a == Null || b == Null then N else w.same(a, b)
  }

  function AtLeast(w: World, a: Value, b: Value): Tri {
    if a == Null || b == Null then N else w.atLeast(a, b)
  }

  /** a IS b never yields NULL, whatever a and b hold. */
  function Identical(w: World, a: Value, b: Value): Tri {
    if a == Null && b == Null then T else if a == Null || b == Null then F
    else if w.identical(a, b) then T else F
  }

  /** CURRENT_TIME and its kin are calls without arguments. */
  function LeafValue(w: World, kind: LeafKind, t: Token): Value {
    match kind
    case NullLit => Null
    case CurrentTime => w.call(t, false, [])
    case _ => w.leaf(kind, t)
  }

  function BinaryValue(w: World, op: BinOp, a: Value, b: Value): Value {
    match op
    case EqOp => Of(Eq(w, a, b))
    case NeOp => Of(Not3(Eq(w, a, b)))
    case _ => w.binary(op, a, b)
  }

  function PrefixValue(w: World, op: PrefixOp, a: Value): Value {
    if op == NotOp then Of(Not3(Truth(w, a))) else w.prefix(op, a)
  }

  /** x IN (vs): equal to one of them, NULL if only NULLs leave it open, false of no values. */
  function Among(w: World, x: Value, vs: seq<Value>): Tri {
    if vs == [] then F else Or3(Among(w, x, vs[..|vs| - 1]), Eq(w, x, vs[|vs| - 1]))
  }

  function FirstRow(vs: seq<Value>): Value { if vs == [] then Null else vs[0] }

  function Signed(negated: bool, a: Tri): Tri { if negated then Not3(a) else a }

  /** The THEN value of the first arm that applies, from arm k on. */
  function Choose(w: World, x: Option<Value>, arms: seq<(Value, Value)>, other: Option<Value>): Value {
    if arms == [] then (if other.Some? then other.value else Null)
    else if (if x.Some? then Eq(w, x.value, arms[0].0) else Truth(w, arms[0].0)) == T then arms[0].1
    else Choose(w, x, arms[1..], other)
  }

  // ----- that these are the SQL operators -----

  /** False, unknown, true, in this order. */
  function Rank(a: Tri): int {
    match a case F => 0 case N => 1 case T => 2
  }

  /** AND is the smaller, OR the larger, NOT the mirror image; only NULL is unknown. */
  lemma ThreeValued(w: World, a: Tri, b: Tri)
    ensures Rank(And3(a, b)) == if Rank(a) < Rank(b) then Rank(a) else Rank(b)
    ensures Rank(Or3(a, b)) == if Rank(a) < Rank(b) then Rank(b) else Rank(a)
    ensures Rank(Not3(a)) == 2 - Rank(a)
    ensures Truth(w, Of(a)) == a && (Of(a) == Null <==> a == N)
    ensures Truth(w, Num(0)) == F && Truth(w, Null) == N
  {
  }

  /** A comparison with NULL is unknown; IS is always decided, and NULL is only itself. */
  lemma NullCompares(w: World, a: Value)
    ensures Eq(w, a, Null) == N == Eq(w, Null, a)
    ensures AtLeast(w, a, Null) == N == AtLeast(w, Null, a)
    ensures Identical(w, a, Null) == Identical(w, Null, a) == if a == Null then T else F
    ensures forall b :: Identical(w, a, b) != N
  {
  }

  /** IN is true if some value is equal, false if all are known to differ, and unknown otherwise. */
  lemma {:induction false} AmongIsMembership(w: World, x: Value, vs: seq<Value>)
    ensures Among(w, x, vs) == T <==> exists i :: 0 <= i < |vs| && Eq(w, x, vs[i]) == T
    ensures Among(w, x, vs) == F <==> forall i :: 0 <= i < |vs| ==> Eq(w, x, vs[i]) == F
    decreases |vs|
  {
    hide Eq;
    if vs != [] {
      var n := |vs| - 1;
      AmongIsMembership(w, x, vs[..n]);
      assert forall i :: 0 <= i < n ==> vs[..n][i] == vs[i];
      if Among(w, x, vs[..n]) == T {
        var i :| 0 <= i < n && Eq(w, x, vs[..n][i]) == T;
        assert Eq(w, x, vs[i]) == T;
      }
    }
  }

  /** An arm of CASE applies if its value equals the operand, or without one, if it is true. */
  predicate Applies(w: World, x: Option<Value>, arm: (Value, Value)) {
    (if x.Some? then Eq(w, x.value, arm.0) else Truth(w, arm.0)) == T
  }

  /** CASE yields the value of arm k if that is the first to apply, and the ELSE if none does. */
  lemma {:induction false} ChooseTakesFirst(w: World, x: Option<Value>, arms: seq<(Value, Value)>,
                                            other: Option<Value>, k: nat)
    requires k <= |arms| && forall i :: 0 <= i < k ==> !Applies(w, x, arms[i])
    ensures k < |arms| && Applies(w, x, arms[k]) ==> Choose(w, x, arms, other) == arms[k].1
    ensures k == |arms| ==> Choose(w, x, arms, other) == OrNull(other)
    decreases |arms|
  {
    hide Eq, Truth;
    if k > 0 {
      assert !Applies(w, x, arms[0]);
      forall i | 0 <= i < k - 1
        ensures !Applies(w, x, arms[1..][i])
      {
        assert arms[1..][i] == arms[i + 1];
      }
      ChooseTakesFirst(w, x, arms[1..], other, k - 1);
    }
  }

  // ----- what the syntax means -----

  function MeanAll(w: World, es: seq<Syntax>): (r: seq<Value>)
    ensures |r| == |es|
    decreases es, 0
  {
    if es == [] then [] else MeanAll(w, es[..|es| - 1]) + [Mean(w, es[|es| - 1])]
  }

  function MeanArms(w: World, arms: seq<(Syntax, Syntax)>): (r: seq<(Value, Value)>)
    ensures |r| == |arms|
    decreases arms, 0
  {
    if arms == [] then []
    else
      MeanArms(w, arms[..|arms| - 1]) + [MeanArm(w, arms[|arms| - 1])]
  }

  function MeanArm(w: World, arm: (Syntax, Syntax)): (Value, Value)
    decreases arm, 0
  {
    (Mean(w, arm.0), Mean(w, arm.1))
  }

  function Mean(w: World, s: Syntax): Value
    decreases s, 1
  {
    match s
    case Leaf(kind, t) => LeafValue(w, kind, t)
    case Paren(_, inner, _) => Mean(w, inner)
    case Dotted(first, second, third) =>
      var rest := w.leaf(Name, second);
      w.dot(w.leaf(Name, first), if third.Some? then w.dot(rest, w.leaf(Name, third.value)) else rest)
    case Collate(e, name) => w.collate(Mean(w, e), name)
    case Cast(_, e, typetoken, _) => w.cast(Mean(w, e), typetoken)
    case Call(fn, distinct, args, _) => w.call(fn, distinct, MeanAll(w, args))
    case Vector(_, items, _) => w.vector(MeanAll(w, items))
    case Binary(op, l, r) => BinaryValue(w, op, Mean(w, l), Mean(w, r))
    case Like(negated, likeop, l, r, escape) =>
      var extra := if escape.Some? then [Mean(w, escape.value)] else [];
      var v := w.call(likeop, false, [Mean(w, r), Mean(w, l)] + extra);
      if negated then Of(Not3(Truth(w, v))) else v
    case NullTest(notNull, e, _) => Of(if (Mean(w, e) == Null) != notNull then T else F)
    case Is(negated, l, r) => Of(Signed(negated, Identical(w, Mean(w, l), Mean(w, r))))
    case Prefix(pre, _, e) => PrefixValue(w, pre, Mean(w, e))
    case Between(negated, e, lo, hi) =>
      var x := Mean(w, e);
      Of(Signed(negated, And3(AtLeast(w, x, Mean(w, lo)), AtLeast(w, Mean(w, hi), x))))
    case InList(negated, e, items, _) => Of(Signed(negated, Among(w, Mean(w, e), MeanAll(w, items))))
    case InSelect(negated, e, select, _) => Of(Signed(negated, Among(w, Mean(w, e), w.rows(select))))
    case InTable(negated, e, table, _, _, _) => Of(Signed(negated, Among(w, Mean(w, e), w.rows(table))))
    case SubSelect(_, select, _) => FirstRow(w.rows(select))
    case Exists(_, select, _) => Of(if w.rows(select) != [] then T else F)
    case Case(_, operand, arms, other, _) =>
      Choose(w, if operand.Some? then Some(Mean(w, operand.value)) else None, MeanArms(w, arms),
             if other.Some? then Some(Mean(w, other.value)) else None)
  }

  // ----- what the tree computes -----

  /** WHEN and THEN values alternate; a value left over is the ELSE. */
  function Pairs<A>(vs: seq<A>): (r: (seq<(A, A)>, Option<A>)) {
    if vs == [] then ([], None)
    else if |vs| == 1 then ([], Some(vs[0]))
    else
      var (arms, other) := Pairs(vs[2..]);
      ([(vs[0], vs[1])] + arms, other)
  }

  function EvalAll(w: World, es: seq<Expr>): (r: seq<Value>)
    ensures |r| == |es|
    decreases es, 0
  {
    if es == [] then [] else EvalAll(w, es[..|es| - 1]) + [Eval(w, es[|es| - 1])]
  }

  function TokenOf(x: Text): Token { if x.Source? then x.t else Token(0, 0) }

  /** One node, given the values below it. */
  function Node(w: World, op: Op, text: Text, a: Option<Value>, b: Option<Value>, list: seq<Value>,
                select: Option<nat>): Value
  {
    var x, y := OrNull(a), OrNull(b);
    match op
    case TkNull => Null
    case TkLeaf(kind) => w.leaf(kind, TokenOf(text))
    case TkInteger => if text.Constant? then Num(text.k) else w.leaf(Number, TokenOf(text))
    case TkDot => w.dot(x, y)
    case TkCollate => w.collate(x, TokenOf(text))
    case TkCast => w.cast(x, TokenOf(text))
    case TkFunction(distinct) => w.call(TokenOf(text), distinct, list)
    case TkVector => w.vector(list)
    case TkBinary(bin) => BinaryValue(w, bin, x, y)
    case TkIs => Of(Identical(w, x, y))
    case TkIsNot => Of(Not3(Identical(w, x, y)))
    case TkIsNull => Of(if x == Null then T else F)
    case TkNotNull => Of(if x == Null then F else T)
    case TkPrefix(pre) => PrefixValue(w, pre, x)
    case TkBetween => if |list| == 2 then Of(And3(AtLeast(w, x, list[0]), AtLeast(w, list[1], x))) else Null
    case TkIn => Of(Among(w, x, if select.Some? then w.rows(select.value) else list))
    case TkSelect => if select.Some? then FirstRow(w.rows(select.value)) else Null
    case TkExists => if select.Some? then Of(if w.rows(select.value) != [] then T else F) else Null
    case TkCase => CaseValue(w, a, list)
  }

  function CaseValue(w: World, x: Option<Value>, list: seq<Value>): Value {
    var (arms, other) := Pairs(list);
    Choose(w, x, arms, other)
  }

  function OrNull(a: Option<Value>): Value { if a.Some? then a.value else Null }

  function EvalOpt(w: World, e: Option<Expr>): Option<Value>
    decreases e, 2
  {
    if e.Some? then Some(Eval(w, e.value)) else None
  }

  function Eval(w: World, e: Expr): Value
    decreases e, 1
  {
    Node(w, e.op, e.text, EvalOpt(w, e.pLeft), EvalOpt(w, e.pRight), EvalAll(w, e.pList), e.pSelect)
  }

  // ----- CASE lists decode -----

  function Flatten<A>(arms: seq<(A, A)>): (r: seq<A>)
    ensures |r| == 2 * |arms|
  {
    if arms == [] then [] else [arms[0].0, arms[0].1] + Flatten(arms[1..])
  }

  function Tail<A>(other: Option<A>): seq<A> { if other.Some? then [other.value] else [] }

  /** The flattened list has odd length exactly when there is an ELSE, and gives back the arms
      in order and the ELSE. */
  lemma {:induction false} CaseListDecodes<A>(arms: seq<(A, A)>, other: Option<A>)
    ensures |Flatten(arms) + Tail(other)| % 2 == 1 <==> other.Some?
    ensures Pairs(Flatten(arms) + Tail(other)) == (arms, other)
    decreases |arms|
  {
    var vs := Flatten(arms) + Tail(other);
    if arms == [] {
      assert vs == Tail(other);
    } else {
      CaseListDecodes(arms[1..], other);
      assert vs == [arms[0].0, arms[0].1] + (Flatten(arms[1..]) + Tail(other));
      assert vs[2..] == Flatten(arms[1..]) + Tail(other);
      assert arms == [(arms[0].0, arms[0].1)] + arms[1..];
    }
  }

  lemma {:induction false} FlattenSnoc<A>(arms: seq<(A, A)>, arm: (A, A))
    ensures Flatten(arms + [arm]) == Flatten(arms) + [arm.0, arm.1]
    decreases |arms|
  {
    if arms != [] {
      assert (arms + [arm])[1..] == arms[1..] + [arm];
      FlattenSnoc(arms[1..], arm);
    } else {
      assert (arms + [arm])[1..] == [];
    }
  }

  // ----- building preserves meaning -----

  lemma TruthOf(w: World, a: Tri)
    ensures Truth(w, Of(a)) == a
  {
  }

  lemma NotExprMeans(w: World, negated: bool, e: Expr, a: Tri)
    requires Eval(w, e) == Of(a)
    ensures Eval(w, NotExpr(negated, e)) == Of(Signed(negated, a))
  {
    TruthOf(w, a);
  }

  lemma EvalPush(w: World, es: seq<Expr>, e: Expr)
    ensures EvalAll(w, es + [e]) == EvalAll(w, es) + [Eval(w, e)]
  {
    assert (es + [e])[..|es + [e]| - 1] == es;
  }

  lemma AmongOne(w: World, x: Value, v: Value)
    ensures Among(w, x, [v]) == Eq(w, x, v)
  {
    assert [v][..0] == [];
  }

  lemma ComparisonMeans(w: World, negated: bool, e: Expr, item: Expr)
    ensures Eval(w, PExpr(TkBinary(if negated then NeOp else EqOp), Some(e), Some(item), NoText))
         == Of(Signed(negated, Eq(w, Eval(w, e), Eval(w, item))))
  {
  }

  lemma TestMeans(w: World, e: Expr, items: seq<Expr>)
    ensures Eval(w, PExpr(TkIn, Some(e), None, NoText).(pList := items))
         == Of(Among(w, Eval(w, e), EvalAll(w, items)))
  {
    hide EvalAll, Among;
  }

  lemma RowsTestMeans(w: World, e: Expr, rows: nat)
    ensures Eval(w, InExpr(e, rows)) == Of(Among(w, Eval(w, e), w.rows(rows)))
  {
    hide Among, CaseValue;
  }

  lemma EvalIs(w: World, e: Expr)
    ensures Eval(w, e)
         == Node(w, e.op, e.text, EvalOpt(w, e.pLeft), EvalOpt(w, e.pRight), EvalAll(w, e.pList), e.pSelect)
  {
    hide Node, EvalOpt, EvalAll;
  }

  lemma BetweenNode(w: World, x: Value, lo: Value, hi: Value)
    ensures Node(w, TkBetween, NoText, Some(x), None, [lo, hi], None)
         == Of(And3(AtLeast(w, x, lo), AtLeast(w, hi, x)))
  {
    hide CaseValue, Among, BinaryValue, PrefixValue, And3, AtLeast, Identical;
  }

  lemma BetweenTestMeans(w: World, e: Expr, lo: Expr, hi: Expr)
    ensures Eval(w, BetweenExpr(e, lo, hi))
         == Of(And3(AtLeast(w, Eval(w, e), Eval(w, lo)), AtLeast(w, Eval(w, hi), Eval(w, e))))
  {
    hide Node, Eval, EvalAll, And3, AtLeast;
    EvalTwo(w, lo, hi);
    EvalIs(w, BetweenExpr(e, lo, hi));
    BetweenNode(w, Eval(w, e), Eval(w, lo), Eval(w, hi));
  }

  /** IN with no item is a constant, with one item a comparison, otherwise a test. */
  lemma InMeans(w: World, negated: bool, e: Expr, items: seq<Expr>)
    ensures Eval(w, BuildIn(negated, e, items)) == Of(Signed(negated, Among(w, Eval(w, e), EvalAll(w, items))))
  {
    if |items| == 0 {
      assert items == [];
    } else if |items| == 1 {
      hide Eval, Among;
      ComparisonMeans(w, negated, e, items[0]);
      AmongOne(w, Eval(w, e), Eval(w, items[0]));
      EvalPush(w, [], items[0]);
      assert [] + [items[0]] == items;
    } else {
      hide *;
      TestMeans(w, e, items);
      NotExprMeans(w, negated, PExpr(TkIn, Some(e), None, NoText).(pList := items),
                   Among(w, Eval(w, e), EvalAll(w, items)));
      ManyItems(negated, e, items);
    }
  }

  lemma ManyItems(negated: bool, e: Expr, items: seq<Expr>)
    requires |items| > 1
    ensures BuildIn(negated, e, items) == NotExpr(negated, PExpr(TkIn, Some(e), None, NoText).(pList := items))
  {
  }

  /** The tokens of LIKE operators are short enough to leave bit 31 free, everywhere in s. */
  predicate ShortLike(s: Syntax)
    decreases s, 1
  {
    match s
    case Leaf(_, _) => true
    case Paren(_, inner, _) => ShortLike(inner)
    case Dotted(_, _, _) => true
    case Collate(e, _) => ShortLike(e)
    case Cast(_, e, _, _) => ShortLike(e)
    case Call(_, _, args, _) => ShortLikes(args)
    case Vector(_, items, _) => ShortLikes(items)
    case Binary(_, l, r) => ShortLike(l) && ShortLike(r)
    case Like(_, likeop, l, r, escape) =>
      likeop.n < BIT31 && ShortLike(l) && ShortLike(r) && (escape.Some? ==> ShortLike(escape.value))
    case NullTest(_, e, _) => ShortLike(e)
    case Is(_, l, r) => ShortLike(l) && ShortLike(r)
    case Prefix(_, _, e) => ShortLike(e)
    case Between(_, e, lo, hi) => ShortLike(e) && ShortLike(lo) && ShortLike(hi)
    case InList(_, e, items, _) => ShortLike(e) && ShortLikes(items)
    case InSelect(_, e, _, _) => ShortLike(e)
    case InTable(_, e, _, _, _, _) => ShortLike(e)
    case SubSelect(_, _, _) => true
    case Exists(_, _, _) => true
    case Case(_, operand, arms, other, _) =>
      && (operand.Some? ==> ShortLike(operand.value))
      && (forall i :: 0 <= i < |arms| ==> ShortLike(arms[i].0) && ShortLike(arms[i].1))
      && (other.Some? ==> ShortLike(other.value))
  }

  predicate ShortLikes(es: seq<Syntax>)
    decreases es, 0
  {
    forall i :: 0 <= i < |es| ==> ShortLike(es[i])
  }

  lemma {:induction false} BuildAllMeans(w: World, es: seq<Syntax>)
    requires ShortLikes(es)
    ensures EvalAll(w, BuildAll(es)) == MeanAll(w, es)
    decreases es, 0
  {
    if es != [] {
      var n := |es| - 1;
      BuildAllMeans(w, es[..n]);
      BuildMeans(w, es[n]);
      EvalPush(w, BuildAll(es[..n]), Build(es[n]).pExpr);
    }
  }

  lemma {:induction false} BuildArmsMeans(w: World, arms: seq<(Syntax, Syntax)>)
    requires forall i :: 0 <= i < |arms| ==> ShortLike(arms[i].0) && ShortLike(arms[i].1)
    ensures EvalAll(w, BuildArms(arms)) == Flatten(MeanArms(w, arms))
    decreases arms, 0
  {
    if arms != [] {
      var n := |arms| - 1;
      BuildArmsMeans(w, arms[..n]);
      BuildArmMeans(w, arms[n], BuildArms(arms[..n]));
      FlattenSnoc(MeanArms(w, arms[..n]), MeanArm(w, arms[n]));
    }
  }

  lemma {:induction false} BuildArmMeans(w: World, arm: (Syntax, Syntax), before: seq<Expr>)
    requires ShortLike(arm.0) && ShortLike(arm.1)
    ensures EvalAll(w, before + BuildArm(arm)) == EvalAll(w, before) + [MeanArm(w, arm).0, MeanArm(w, arm).1]
    decreases arm, 0
  {
    var a, b := Build(arm.0).pExpr, Build(arm.1).pExpr;
    BuildMeans(w, arm.0);
    BuildMeans(w, arm.1);
    EvalPush(w, before, a);
    EvalPush(w, before + [a], b);
    assert before + BuildArm(arm) == before + [a] + [b];
  }

  /** For every expression, the tree that the actions build computes what the syntax means. */
  lemma {:induction false} BuildMeans(w: World, s: Syntax)
    requires ShortLike(s)
    ensures Eval(w, Build(s).pExpr) == Mean(w, s)
    decreases s, 1
  {
    hide Build, Mean, Eval;
    match s
    case Paren(_, _, _) => UnaryMeans(w, s);
    case Collate(_, _) => UnaryMeans(w, s);
    case Cast(_, _, _, _) => UnaryMeans(w, s);
    case NullTest(_, _, _) => UnaryMeans(w, s);
    case Prefix(_, _, _) => UnaryMeans(w, s);
    case Call(_, _, _, _) => ListMeans(w, s);
    case Vector(_, _, _) => ListMeans(w, s);
    case Binary(_, _, _) => BinaryMeans(w, s);
    case Is(_, _, _) => IsMeans(w, s);
    case Like(_, _, _, _, _) => LikeMeans(w, s);
    case Between(_, _, _, _) => BetweenMeans(w, s);
    case InList(_, _, _, _) => InListMeans(w, s);
    case InSelect(_, _, _, _) => InRowsMeans(w, s);
    case InTable(_, _, _, _, _, _) => InRowsMeans(w, s);
    case Case(_, _, _, _, _) => CaseMeans(w, s);
    case _ => LeafMeans(w, s);
  }

  lemma LeafMeans(w: World, s: Syntax)
    requires s.Leaf? || s.Dotted? || s.SubSelect? || s.Exists?
    ensures Eval(w, Build(s).pExpr) == Mean(w, s)
  {
    if s.Dotted? {
      NameMeans(w, s.first);
      NameMeans(w, s.second);
      if s.third.Some? {
        NameMeans(w, s.third.value);
        DotMeans(w, NameExpr(s.second), NameExpr(s.third.value));
        DotMeans(w, NameExpr(s.first), DotExpr(NameExpr(s.second), NameExpr(s.third.value)));
      }
    }
  }

  lemma DotMeans(w: World, a: Expr, b: Expr)
    ensures Eval(w, DotExpr(a, b)) == w.dot(Eval(w, a), Eval(w, b))
  {
  }

  lemma NameMeans(w: World, t: Token)
    ensures Eval(w, NameExpr(t)) == w.leaf(Name, t)
  {
  }

  lemma {:induction false} UnaryMeans(w: World, s: Syntax)
    requires s.Paren? || s.Collate? || s.Cast? || s.NullTest? || s.Prefix?
    requires ShortLike(s)
    ensures Eval(w, Build(s).pExpr) == Mean(w, s)
    decreases s, 0
  {
    BuildMeans(w, if s.Paren? then s.inner else s.e);
  }

  lemma {:induction false} ListMeans(w: World, s: Syntax)
    requires (s.Call? || s.Vector?) && ShortLike(s)
    ensures Eval(w, Build(s).pExpr) == Mean(w, s)
    decreases s, 0
  {
    if s.Call? {
      BuildAllMeans(w, s.args);
      CallMeans(w, s.distinct, s.fn, BuildAll(s.args));
    } else {
      BuildAllMeans(w, s.items);
      VectorMeans(w, BuildAll(s.items));
    }
    hide Node, Eval;
  }

  lemma CallMeans(w: World, distinct: bool, name: Token, list: seq<Expr>)
    ensures Eval(w, FunctionExpr(distinct, name, list)) == w.call(name, distinct, EvalAll(w, list))
  {
    hide EvalAll, CaseValue, Among;
  }

  lemma VectorMeans(w: World, list: seq<Expr>)
    ensures Eval(w, PExpr(TkVector, None, None, NoText).(pList := list)) == w.vector(EvalAll(w, list))
  {
    hide EvalAll, CaseValue, Among;
  }

  lemma {:induction false} BinaryMeans(w: World, s: Syntax)
    requires s.Binary? && ShortLike(s)
    ensures Eval(w, Build(s).pExpr) == Mean(w, s)
    decreases s, 0
  {
    BuildMeans(w, s.l);
    BuildMeans(w, s.r);
  }

  /** IS and IS NOT against a literal NULL become the unary tests, without a right operand. */
  lemma {:induction false} IsMeans(w: World, s: Syntax)
    requires s.Is? && ShortLike(s)
    ensures Eval(w, Build(s).pExpr) == Mean(w, s)
    ensures Build(s).pExpr.pLeft == Some(Build(s.l).pExpr)
    ensures Build(s).pExpr.pRight.None? <==> Build(s.r).pExpr.op == TkNull
    decreases s, 0
  {
    BuildMeans(w, s.l);
    BuildMeans(w, s.r);
    IsTreeMeans(w, s.negated, Build(s.l).pExpr, Build(s.r).pExpr);
  }

  lemma IsTreeMeans(w: World, negated: bool, l: Expr, r: Expr)
    ensures
      var both := PExpr(if negated then TkIsNot else TkIs, Some(l), Some(r), NoText);
      var built := UnaryIfNull(r, both, if negated then TkNotNull else TkIsNull);
      && Eval(w, built) == Of(Signed(negated, Identical(w, Eval(w, l), Eval(w, r))))
      && (r.op == TkNull ==> built.pLeft == Some(l) && built.pRight == None)
      && (r.op != TkNull ==> built == both)
  {
  }

  lemma {:induction false} InListMeans(w: World, s: Syntax)
    requires s.InList? && ShortLike(s)
    ensures Eval(w, Build(s).pExpr) == Mean(w, s)
    decreases s, 0
  {
    BuildMeans(w, s.e);
    BuildAllMeans(w, s.items);
    InMeans(w, s.negated, Build(s.e).pExpr, BuildAll(s.items));
  }

  lemma {:induction false} InRowsMeans(w: World, s: Syntax)
    requires (s.InSelect? || s.InTable?) && ShortLike(s)
    ensures Eval(w, Build(s).pExpr) == Mean(w, s)
    decreases s, 0
  {
    var rows := if s.InSelect? then s.select else s.table;
    BuildMeans(w, s.e);
    hide Node, Eval;
    RowsTestMeans(w, Build(s.e).pExpr, rows);
    NotExprMeans(w, s.negated, InExpr(Build(s.e).pExpr, rows), Among(w, Mean(w, s.e), w.rows(rows)));
  }

  lemma EvalTwo(w: World, a: Expr, b: Expr)
    ensures EvalAll(w, [a, b]) == [Eval(w, a), Eval(w, b)]
  {
    EvalPush(w, [], a);
    EvalPush(w, [a], b);
    assert [a, b] == [a] + [b] && [] + [a] == [a];
  }

  lemma {:induction false} LikeMeans(w: World, s: Syntax)
    requires s.Like? && ShortLike(s)
    ensures Eval(w, Build(s).pExpr) == Mean(w, s)
    decreases s, 0
  {
    BuildMeans(w, s.l);
    BuildMeans(w, s.r);
    LikeRoundTrip(s.negated, s.likeop.n);
    var a, b := Build(s.l).pExpr, Build(s.r).pExpr;
    var list := [b, a] + (if s.escape.Some? then [Build(s.escape.value).pExpr] else []);
    EvalTwo(w, b, a);
    if s.escape.Some? {
      BuildMeans(w, s.escape.value);
      EvalPush(w, [b, a], Build(s.escape.value).pExpr);
    } else {
      assert list == [b, a];
    }
    LikeCallMeans(w, s.negated, s.likeop, list,
                  [Mean(w, s.r), Mean(w, s.l)] + if s.escape.Some? then [Mean(w, s.escape.value)] else []);
  }

  lemma LikeCallMeans(w: World, negated: bool, name: Token, list: seq<Expr>, vs: seq<Value>)
    requires EvalAll(w, list) == vs
    ensures
      var v := w.call(name, false, vs);
      Eval(w, NotExpr(negated, FunctionExpr(false, name, list))) == if negated then Of(Not3(Truth(w, v))) else v
  {
    assert Eval(w, FunctionExpr(false, name, list)) == w.call(name, false, vs);
  }

  lemma {:induction false} BetweenMeans(w: World, s: Syntax)
    requires s.Between? && ShortLike(s)
    ensures Eval(w, Build(s).pExpr) == Mean(w, s)
    decreases s, 0
  {
    BuildMeans(w, s.e);
    BuildMeans(w, s.lo);
    BuildMeans(w, s.hi);
    var a, b, c := Build(s.e).pExpr, Build(s.lo).pExpr, Build(s.hi).pExpr;
    hide Node, Eval;
    BetweenTestMeans(w, a, b, c);
    var x := Mean(w, s.e);
    NotExprMeans(w, s.negated, BetweenExpr(a, b, c), And3(AtLeast(w, x, Mean(w, s.lo)), AtLeast(w, Mean(w, s.hi), x)));
  }

  lemma {:induction false} CaseMeans(w: World, s: Syntax)
    requires s.Case? && ShortLike(s)
    ensures Eval(w, Build(s).pExpr) == Mean(w, s)
    decreases s, 0
  {
    var arms := MeanArms(w, s.arms);
    var other := if s.other.Some? then Some(Mean(w, s.other.value)) else None;
    var list := BuildArms(s.arms) + (if s.other.Some? then [Build(s.other.value).pExpr] else []);
    assert EvalAll(w, list) == Flatten(arms) + Tail(other) by {
      BuildArmsMeans(w, s.arms);
      if s.other.Some? {
        BuildMeans(w, s.other.value);
        EvalPush(w, BuildArms(s.arms), Build(s.other.value).pExpr);
      } else {
        assert list == BuildArms(s.arms);
      }
    }
    CaseListDecodes(arms, other);
    if s.operand.Some? {
      BuildMeans(w, s.operand.value);
    }
    CaseTreeMeans(w, if s.operand.Some? then Some(Build(s.operand.value).pExpr) else None, list, arms, other);
  }

  lemma CaseTreeMeans(w: World, left: Option<Expr>, list: seq<Expr>, arms: seq<(Value, Value)>, other: Option<Value>)
    requires Pairs(EvalAll(w, list)) == (arms, other)
    ensures Eval(w, CaseExpr(left, list))
         == Choose(w, if left.Some? then Some(Eval(w, left.value)) else None, arms, other)
  {
  }
}

/** The expression actions as they run on the parser's stack.  The value of an entry is a union:
    a token and the expression that replaces it lie over the same words, and the actions write
    the one while they still need the other. */
module SpanActions {
  import opened Wrappers
  import opened Machine
  import opened Expressions

  /** A word that holds the start of a token's text, or the tree of an expression. */
  datatype Word = Address(a: nat) | Tree(e: Expr)

  /** The value of a stack entry.  As a token: the text's start and length in the first two
      words.  As an expression: the tree, and the start and end of its span. */
  class Slot {
    var word0: Word
    var word1: nat
    var word2: nat

    ghost predicate IsToken()
      reads this
    {
      word0.Address?
    }

    ghost function Tok(): Token
      requires IsToken()
      reads this
    {
      Token(word0.a, word1)
    }

    ghost predicate IsSpan()
      reads this
    {
      word0.Tree?
    }

    ghost function Val(): Span
      requires IsSpan()
      reads this
    {
      Span(word0.e, word1, word2)
    }

    /** What a shift leaves. */
    constructor (t: Token)
      ensures IsToken() && Tok() == t
    {
      word0 := Address(t.z);
      word1 := t.n;
    }

    /** A temporary left side. */
    constructor OfTree(e: Expr)
      ensures word0 == Tree(e)
    {
      word0 := Tree(e);
    }
  }

  // ----- helper routines -----

  /** Cover the text from pStart to the end of pEnd.  The output may be the entry of the first
      token: its start is read before it is overwritten, and its length is not needed.  It
      may not be the entry of the last, whose length the new start overwrites: then the end is
      right only by coincidence. */
  method SpanSet(pOut: Slot, pStart: Slot, pEnd: Slot)
    requires pStart.IsToken() && pEnd.IsToken()
    modifies pOut`word1, pOut`word2
    ensures pOut.word1 == old(pStart.Tok().z)
    ensures pOut.word2 == End(old(pEnd.Tok())) <==> pOut != pEnd || old(pStart.Tok().z) == old(pEnd.Tok().n)
  {
    pOut.word1 := pStart.word0.a;
    pOut.word2 := pEnd.word0.a + pEnd.word1;
  }

  /** A leaf made of one token, which is passed by value. */
  method SpanExpr(pOut: Slot, op: Op, t: Token)
    modifies pOut
    ensures pOut.IsSpan() && pOut.Val() == LeafSpan(op, t)
  {
    pOut.word0 := Tree(PExpr(op, None, None, Source(t)));
    pOut.word1 := t.z;
    pOut.word2 := t.z + t.n;
  }

  /** A binary node over both operands; the left operand is also the output. */
  method SpanBinaryExpr(op: Op, pLeft: Slot, pRight: Slot)
    requires pLeft.IsSpan() && pRight.IsSpan()
    modifies pLeft
    ensures pLeft.IsSpan() && pLeft.Val() == BinarySpan(op, old(pLeft.Val()), old(pRight.Val()))
  {
    pLeft.word0 := Tree(PExpr(op, Some(pLeft.word0.e), Some(pRight.word0.e), NoText));
    pLeft.word2 := pRight.word2;
  }

  method ExprNot(doNot: bool, pSpan: Slot)
    requires pSpan.IsSpan()
    modifies pSpan`word0
    ensures pSpan.word0 == Tree(NotExpr(doNot, old(pSpan.word0.e)))
  {
    if doNot {
      pSpan.word0 := Tree(PExpr(TkPrefix(NotOp), Some(pSpan.word0.e), None, NoText));
    }
  }

  method SpanUnaryPostfix(op: Op, pOperand: Slot, pPostOp: Slot)
    requires pOperand.IsSpan() && pPostOp.IsToken()
    modifies pOperand
    ensures pOperand.IsSpan() && pOperand.Val()
         == Span(PExpr(op, Some(old(pOperand.Val().pExpr)), None, NoText), old(pOperand.word1), End(old(pPostOp.Tok())))
  {
    pOperand.word0 := Tree(PExpr(op, Some(pOperand.word0.e), None, NoText));
    pOperand.word2 := pPostOp.word0.a + pPostOp.word1;
  }

  /** The output may be the entry of the operator or that of the operand: the start is taken
      from the token before the tree overwrites it. */
  method SpanUnaryPrefix(pOut: Slot, op: Op, pOperand: Slot, pPreOp: Slot)
    requires pOperand.IsSpan() && pPreOp.IsToken()
    modifies pOut
    ensures pOut.IsSpan() && pOut.Val()
         == Span(PExpr(op, Some(old(pOperand.Val().pExpr)), None, NoText),
                 old(pPreOp.Tok().z), old(pOperand.Val().zEnd))
  {
    pOut.word1 := pPreOp.word0.a;
    pOut.word0 := Tree(PExpr(op, Some(pOperand.word0.e), None, NoText));
    pOut.word2 := pOperand.word2;
  }

  /** Turn the IS or IS NOT node in pA into a unary test when its right side is a literal NULL. */
  method BinaryToUnaryIfNull(pY: Expr, pA: Slot, op: Op)
    requires pA.IsSpan()
    modifies pA`word0
    ensures pA.word0 == Tree(UnaryIfNull(pY, old(pA.word0.e), op))
  {
    if pY.op == TkNull {
      pA.word0 := Tree(pA.word0.e.(op := op, pRight := None));
    }
  }

  // ----- actions -----

  /** The spanSet of a rule whose first and last symbols are tokens, then its tree: the entry of
      the first token becomes the expression. */
  method ReduceBetweenTokens(pFirst: Slot, pLast: Slot, e: Expr)
    requires pFirst.IsToken() && pLast.IsToken() && pFirst != pLast
    modifies pFirst
    ensures pFirst.IsSpan() && pFirst.Val() == SpanOf(e, old(pFirst.Tok()), old(pLast.Tok()))
  {
    SpanSet(pFirst, pFirst, pLast);
    pFirst.word0 := Tree(e);
  }

  /** The rules that build their left side apart and copy it over the first symbol: function
      calls, CURRENT_TIME and row values.  The first and last symbols may be the same. */
  method ReduceApart(pFirst: Slot, pLast: Slot, e: Expr)
    requires pFirst.IsToken() && pLast.IsToken()
    modifies pFirst
    ensures pFirst.IsSpan() && pFirst.Val() == SpanOf(e, old(pFirst.Tok()), old(pLast.Tok()))
  {
    var yylhsminor := new Slot.OfTree(e);
    SpanSet(yylhsminor, pFirst, pLast);
    pFirst.word0, pFirst.word1, pFirst.word2 := yylhsminor.word0, yylhsminor.word1, yylhsminor.word2;
  }

  /** expr ::= expr IS [NOT] expr */
  method ReduceIs(negated: bool, l: Slot, r: Slot)
    requires l.IsSpan() && r.IsSpan() && l != r
    modifies l
    ensures l.IsSpan()
    ensures
      var both := BinarySpan(if negated then TkIsNot else TkIs, old(l.Val()), r.Val());
      l.Val() == both.(pExpr := UnaryIfNull(r.word0.e, both.pExpr, if negated then TkNotNull else TkIsNull))
  {
    SpanBinaryExpr(if negated then TkIsNot else TkIs, l, r);
    BinaryToUnaryIfNull(r.word0.e, l, if negated then TkNotNull else TkIsNull);
  }

  /** likeop: the operator's token replaces that of NOT, with NOT packed into its length. */
  method ReduceLikeOp(negated: bool, likeop: Token) returns (x: Slot)
    ensures fresh(x) && x.IsToken() && x.Tok() == Token(likeop.z, PackLike(negated, likeop.n))
  {
    x := new Slot(likeop);
    if negated && x.word1 < BIT31 {
      x.word1 := x.word1 + BIT31;
    }
  }

  /** expr ::= expr likeop expr [ESCAPE expr] */
  method ReduceLike(likeop: Slot, l: Slot, r: Slot, escape: Slot?)
    requires likeop.IsToken() && l.IsSpan() && r.IsSpan() && l != r && l != escape && l != likeop
    requires escape != null ==> escape.IsSpan() && escape != likeop
    modifies l, likeop`word1
    ensures l.IsSpan()
    ensures
      var packed := old(likeop.word1);
      var list := [r.word0.e, old(l.word0.e)] + if escape != null then [escape.word0.e] else [];
      var name := Token(likeop.word0.a, LikeLength(packed));
      l.Val() == Span(NotExpr(LikeIsNegated(packed), FunctionExpr(false, name, list)),
                      old(l.word1), if escape != null then escape.word2 else r.word2)
  {
    var bNot := LikeIsNegated(likeop.word1);
    likeop.word1 := LikeLength(likeop.word1);
    var list := [r.word0.e];
    list := list + [l.word0.e];
    assert list == [r.word0.e, l.word0.e] == [r.word0.e, l.word0.e] + [];
    if escape != null {
      list := list + [escape.word0.e];
    }
    l.word0 := Tree(FunctionExpr(false, Token(likeop.word0.a, likeop.word1), list));
    ExprNot(bNot, l);
    l.word2 := if escape != null then escape.word2 else r.word2;
  }

  /** expr ::= expr between_op expr AND expr */
  method ReduceBetween(negated: bool, e: Slot, lo: Slot, hi: Slot)
    requires e.IsSpan() && lo.IsSpan() && hi.IsSpan() && e != hi
    modifies e
    ensures e.IsSpan() && e.Val()
         == Span(NotExpr(negated, BetweenExpr(old(e.word0.e), old(lo.word0.e), hi.word0.e)), old(e.word1), hi.word2)
  {
    var list := [lo.word0.e] + [hi.word0.e];
    assert list == [lo.word0.e, hi.word0.e];
    e.word0 := Tree(PExpr(TkBetween, Some(e.word0.e), None, NoText).(pList := list));
    ExprNot(negated, e);
    e.word2 := hi.word2;
  }

  /** expr ::= expr in_op LP exprlist RP */
  method ReduceInList(negated: bool, e: Slot, items: seq<Expr>, rp: Slot)
    requires e.IsSpan() && rp.IsToken()
    modifies e
    ensures e.IsSpan() && e.Val() == Span(BuildIn(negated, old(e.word0.e), items), old(e.word1), End(old(rp.Tok())))
  {
    if |items| == 0 {
      e.word0 := Tree(PExpr(TkInteger, None, None, Constant(if negated then 1 else 0)));
    } else if |items| == 1 {
      e.word0 := Tree(PExpr(TkBinary(if negated then NeOp else EqOp), Some(e.word0.e), Some(items[0]), NoText));
    } else {
      e.word0 := Tree(PExpr(TkIn, Some(e.word0.e), None, NoText).(pList := items));
      ExprNot(negated, e);
    }
    e.word2 := rp.word0.a + rp.word1;
  }

  /** expr ::= expr in_op LP select RP, and expr in_op nm dbnm paren_exprlist */
  method ReduceInRows(negated: bool, e: Slot, rows: nat, last: Slot)
    requires e.IsSpan() && last.IsToken()
    modifies e
    ensures e.IsSpan() && e.Val()
         == Span(NotExpr(negated, InExpr(old(e.word0.e), rows)), old(e.word1), End(old(last.Tok())))
  {
    e.word0 := Tree(InExpr(e.word0.e, rows));
    ExprNot(negated, e);
    e.word2 := last.word0.a + last.word1;
  }

  // ----- whole expressions -----

  /** exprlist: append the items left to right. */
  method RunAll(es: seq<Syntax>) returns (list: seq<Expr>)
    ensures list == BuildAll(es)
    decreases es, 0
  {
    list := [];
    for i := 0 to |es|
      invariant list == BuildAll(es[..i])
    {
      assert es[..i + 1][..i] == es[..i];
      var item := Run(es[i]);
      list := list + [item.word0.e];
    }
    assert es[..|es|] == es;
  }

  /** case_exprlist: append WHEN and THEN of each arm. */
  method RunArms(arms: seq<(Syntax, Syntax)>) returns (list: seq<Expr>)
    ensures list == BuildArms(arms)
    decreases arms, 0
  {
    list := [];
    for i := 0 to |arms|
      invariant list == BuildArms(arms[..i])
    {
      assert arms[..i + 1][..i] == arms[..i];
      var both := RunArm(arms[i]);
      list := list + both;
    }
    assert arms[..|arms|] == arms;
  }

  method RunArm(arm: (Syntax, Syntax)) returns (list: seq<Expr>)
    ensures list == BuildArm(arm)
    decreases arm, 0
  {
    var condition := Run(arm.0);
    var value := Run(arm.1);
    list := [condition.word0.e] + [value.word0.e];
  }

  method RunOption(s: Option<Syntax>) returns (r: Slot?)
    ensures r == null <==> s == None
    ensures r != null ==> fresh(r) && r.IsSpan() && r.Val() == Build(s.value)
    decreases s, 0
  {
    if s.Some? {
      r := Run(s.value);
    } else {
      r := null;
    }
  }

  /** Run the actions of a whole expression bottom up, each on the entries of its right side.
      The entry of the first symbol ends up with the tree and the span that the syntax calls for. */
  method Run(s: Syntax) returns (r: Slot)
    ensures fresh(r) && r.IsSpan() && r.Val() == Build(s)
    decreases s, 1
  {
    hide NotExpr, BuildIn, UnaryIfNull, PackLike, FunctionExpr, LikeIsNegated, LikeLength;
    match s
    case Leaf(kind, t) => r := RunLeaf(kind, t);
    case Dotted(_, _, _) => r := RunDotted(s);
    case Collate(e, name) =>
      r := Run(e);
      var x := new Slot(name);
      r.word0 := Tree(PExpr(TkCollate, Some(r.word0.e), None, Source(name)));
      r.word2 := x.word0.a + x.word1;
    case Call(fn, distinct, args, rp) =>
      r := new Slot(fn);
      var list := RunAll(args);
      var last := new Slot(rp);
      ReduceApart(r, last, FunctionExpr(distinct, fn, list));
    case Vector(lp, items, rp) =>
      r := new Slot(lp);
      var list := RunAll(items);
      var last := new Slot(rp);
      ReduceApart(r, last, PExpr(TkVector, None, None, NoText).(pList := list));
    case Binary(op, left, right) =>
      r := Run(left);
      var y := Run(right);
      SpanBinaryExpr(TkBinary(op), r, y);
    case NullTest(notNull, e, test) =>
      r := Run(e);
      var x := new Slot(test);
      SpanUnaryPostfix(if notNull then TkNotNull else TkIsNull, r, x);
    case Prefix(pre, opTok, e) =>
      r := new Slot(opTok);
      var operand := Run(e);
      SpanUnaryPrefix(r, TkPrefix(pre), operand, r);
    case Like(_, _, _, _, _) => r := RunTest(s);
    case Is(_, _, _) => r := RunTest(s);
    case Between(_, _, _, _) => r := RunTest(s);
    case InList(_, _, _, _) => r := RunIn(s);
    case InSelect(_, _, _, _) => r := RunIn(s);
    case InTable(_, _, _, _, _, _) => r := RunIn(s);
    case Case(_, _, _, _, _) => r := RunCase(s);
    case _ => r := RunEnclosed(s);
  }

  /** The forms between a first and a last token. */
  method RunEnclosed(s: Syntax) returns (r: Slot)
    requires s.Paren? || s.Cast? || s.SubSelect? || s.Exists?
    ensures fresh(r) && r.IsSpan() && r.Val() == Build(s)
    decreases s, 0
  {
    match s
    case Paren(lp, inner, rp) =>
      r := new Slot(lp);
      var x := Run(inner);
      var last := new Slot(rp);
      ReduceBetweenTokens(r, last, x.word0.e);
    case Cast(kw, e, typetoken, rp) =>
      r := new Slot(kw);
      var x := Run(e);
      var last := new Slot(rp);
      ReduceBetweenTokens(r, last, PExpr(TkCast, Some(x.word0.e), None, Source(typetoken)));
    case SubSelect(lp, select, rp) =>
      r := new Slot(lp);
      var last := new Slot(rp);
      ReduceBetweenTokens(r, last, PExpr(TkSelect, None, None, NoText).(pSelect := Some(select)));
    case Exists(kw, select, rp) =>
      r := new Slot(kw);
      var last := new Slot(rp);
      ReduceBetweenTokens(r, last, PExpr(TkExists, None, None, NoText).(pSelect := Some(select)));
  }

  method RunCase(s: Syntax) returns (r: Slot)
    requires s.Case?
    ensures fresh(r) && r.IsSpan() && r.Val() == Build(s)
    decreases s, 0
  {
    hide CaseExpr;
    r := new Slot(s.kw);
    var left := RunOption(s.operand);
    var list := RunArms(s.arms);
    var tail := RunOption(s.other);
    if tail != null {
      list := list + [tail.word0.e];
    } else {
      assert list == list + [];
    }
    var last := new Slot(s.end);
    ReduceBetweenTokens(r, last, CaseExpr(if left != null then Some(left.word0.e) else None, list));
  }

  /** LIKE, IS and BETWEEN. */
  method RunTest(s: Syntax) returns (r: Slot)
    requires s.Like? || s.Is? || s.Between?
    ensures fresh(r) && r.IsSpan() && r.Val() == Build(s)
    decreases s, 0
  {
    hide NotExpr, BuildIn, UnaryIfNull, PackLike, FunctionExpr, LikeIsNegated, LikeLength;
    match s
    case Like(negated, likeop, left, right, escape) =>
      r := Run(left);
      var o := ReduceLikeOp(negated, likeop);
      var y := Run(right);
      var x := RunOption(escape);
      ReduceLike(o, r, y, x);
    case Is(negated, left, right) =>
      r := Run(left);
      var y := Run(right);
      ReduceIs(negated, r, y);
    case Between(negated, e, lo, hi) =>
      r := Run(e);
      var low := Run(lo);
      var high := Run(hi);
      ReduceBetween(negated, r, low, high);
  }

  method RunIn(s: Syntax) returns (r: Slot)
    requires s.InList? || s.InSelect? || s.InTable?
    ensures fresh(r) && r.IsSpan() && r.Val() == Build(s)
    decreases s, 0
  {
    hide NotExpr, BuildIn, UnaryIfNull, PackLike, FunctionExpr, InExpr;
    match s
    case InList(negated, e, items, rp) =>
      r := Run(e);
      var list := RunAll(items);
      var last := new Slot(rp);
      ReduceInList(negated, r, list, last);
    case InSelect(negated, e, select, rp) =>
      r := Run(e);
      var last := new Slot(rp);
      ReduceInRows(negated, r, select, last);
    case InTable(negated, e, table, nm, dbnm, _) =>
      r := Run(e);
      var last := new Slot(if dbnm.Some? then dbnm.value else nm);
      ReduceInRows(negated, r, table, last);
  }

  method RunLeaf(kind: LeafKind, t: Token) returns (r: Slot)
    ensures fresh(r) && r.IsSpan() && r.Val() == Build(Syntax.Leaf(kind, t))
  {
    r := new Slot(t);
    if kind == CurrentTime {
      ReduceApart(r, r, FunctionExpr(false, t, []));
    } else {
      SpanExpr(r, LeafOp(kind), Token(r.word0.a, r.word1));
    }
  }

  /** expr ::= nm DOT nm [DOT nm] */
  method RunDotted(s: Syntax) returns (r: Slot)
    requires s.Dotted?
    ensures fresh(r) && r.IsSpan() && r.Val() == Build(s)
  {
    r := new Slot(s.first);
    var last := new Slot(if s.third.Some? then s.third.value else s.second);
    var rest := if s.third.Some? then DotExpr(NameExpr(s.second), NameExpr(s.third.value)) else NameExpr(s.second);
    ReduceBetweenTokens(r, last, DotExpr(NameExpr(s.first), rest));
  }
}

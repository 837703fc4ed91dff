/** The form of the trees that the expression actions build: each node has the operands its
    operator calls for and no others, and the tree has one node for each operation written. */
module ExpressionShape {
  import opened Wrappers
  import opened Machine
  import opened Expressions
  import opened ExpressionMeaning

  // ----- operands -----

  predicate Has(e: Expr, left: bool, right: bool, list: bool, select: bool) {
    && e.pLeft.Some? == left && e.pRight.Some? == right
    && (e.pList != [] ==> list) && e.pSelect.Some? == select
  }

  /** The operands of a node, by its operator alone.  A test of membership looks at a subquery or
      at two or more items; an IS that is left over does not compare with a literal NULL. */
  predicate NodeFits(e: Expr) {
    match e.op
    case TkNull => Has(e, false, false, false, false) && e.text.Source?
    case TkLeaf(kind) => Has(e, false, false, false, false) && e.text.Source? && kind != NullLit
    case TkInteger => Has(e, false, false, false, false) && e.text.Constant?
    case TkDot => Has(e, true, true, false, false) && e.text.NoText?
    case TkBinary(_) => Has(e, true, true, false, false) && e.text.NoText?
    case TkIs => Has(e, true, true, false, false) && e.text.NoText? && e.pRight.value.op != TkNull
    case TkIsNot => Has(e, true, true, false, false) && e.text.NoText? && e.pRight.value.op != TkNull
    case TkIsNull => Has(e, true, false, false, false) && e.text.NoText?
    case TkNotNull => Has(e, true, false, false, false) && e.text.NoText?
    case TkPrefix(_) => Has(e, true, false, false, false) && e.text.NoText?
    case TkCollate => Has(e, true, false, false, false) && e.text.Source?
    case TkCast => Has(e, true, false, false, false) && e.text.Source?
    case TkFunction(_) => Has(e, false, false, true, false) && e.text.Source?
    case TkVector => Has(e, false, false, true, false) && e.text.NoText?
    case TkBetween => Has(e, true, false, true, false) && e.text.NoText? && |e.pList| == 2
    case TkIn =>
      && Has(e, true, false, e.pSelect.None?, e.pSelect.Some?) && e.text.NoText?
      && (e.pSelect.None? ==> |e.pList| >= 2)
    case TkSelect => Has(e, false, false, false, true) && e.text.NoText?
    case TkExists => Has(e, false, false, false, true) && e.text.NoText?
    case TkCase => Has(e, e.pLeft.Some?, false, true, false) && e.text.NoText?
  }

  predicate Fits(e: Expr)
    decreases e
  {
    && NodeFits(e)
    && (e.pLeft.Some? ==> Fits(e.pLeft.value))
    && (e.pRight.Some? ==> Fits(e.pRight.value))
    && forall i :: 0 <= i < |e.pList| ==> Fits(e.pList[i])
  }

  predicate AllFit(es: seq<Expr>) {
    forall i :: 0 <= i < |es| ==> Fits(es[i])
  }

  lemma NotExprFits(negated: bool, e: Expr)
    requires Fits(e)
    ensures Fits(NotExpr(negated, e))
  {
  }

  lemma ListFits(e: Expr)
    requires NodeFits(e) && AllFit(e.pList) && e.pRight.None? && (e.pLeft.Some? ==> Fits(e.pLeft.value))
    ensures Fits(e)
  {
    hide NodeFits;
  }

  lemma InFits(negated: bool, e: Expr, items: seq<Expr>)
    requires Fits(e) && AllFit(items)
    ensures Fits(BuildIn(negated, e, items))
  {
    if |items| >= 2 {
      ListFits(PExpr(TkIn, Some(e), None, NoText).(pList := items));
      NotExprFits(negated, PExpr(TkIn, Some(e), None, NoText).(pList := items));
    }
  }

  lemma {:induction false} BuildAllFits(es: seq<Syntax>)
    ensures AllFit(BuildAll(es))
    decreases es, 0
  {
    hide Fits, Build;
    if es != [] {
      BuildAllFits(es[..|es| - 1]);
      BuildFits(es[|es| - 1]);
    }
  }

  lemma {:induction false} BuildArmsFits(arms: seq<(Syntax, Syntax)>)
    ensures AllFit(BuildArms(arms))
    decreases arms, 0
  {
    hide Fits, Build;
    if arms != [] {
      var n := |arms| - 1;
      BuildArmsFits(arms[..n]);
      BuildArmFits(arms[n]);
    }
  }

  lemma {:induction false} BuildArmFits(arm: (Syntax, Syntax))
    ensures AllFit(BuildArm(arm))
    decreases arm, 0
  {
    hide Fits, Build;
    BuildFits(arm.0);
    BuildFits(arm.1);
  }

  /** Every node of every tree that the actions build has exactly its operator's operands. */
  lemma {:induction false} BuildFits(s: Syntax)
    ensures Fits(Build(s).pExpr)
    decreases s, 1
  {
    hide Fits, Build;
    match s
    case Call(_, _, _, _) => ListsFit(s);
    case Vector(_, _, _) => ListsFit(s);
    case Like(_, _, _, _, _) => LikeFits(s);
    case InList(_, _, _, _) => ListsFit(s);
    case Case(_, _, _, _, _) => CaseFits(s);
    case Between(_, _, _, _) => BetweenFits(s);
    case Is(_, _, _) => IsFits(s);
    case InSelect(_, _, _, _) => InRowsFits(s);
    case InTable(_, _, _, _, _, _) => InRowsFits(s);
    case Leaf(_, _) => LeafFits(s);
    case Dotted(_, _, _) => LeafFits(s);
    case SubSelect(_, _, _) => LeafFits(s);
    case Exists(_, _, _) => LeafFits(s);
    case _ => OperatorFits(s);
  }

  lemma DotFits(a: Expr, b: Expr)
    requires Fits(a) && Fits(b)
    ensures Fits(DotExpr(a, b))
  {
  }

  lemma NameFits(t: Token)
    ensures Fits(NameExpr(t))
  {
  }

  lemma LeafFits(s: Syntax)
    requires s.Leaf? || s.Dotted? || s.SubSelect? || s.Exists?
    ensures Fits(Build(s).pExpr)
  {
    if s.Dotted? {
      hide Fits;
      NameFits(s.first);
      NameFits(s.second);
      if s.third.Some? {
        NameFits(s.third.value);
        DotFits(NameExpr(s.second), NameExpr(s.third.value));
        DotFits(NameExpr(s.first), DotExpr(NameExpr(s.second), NameExpr(s.third.value)));
      } else {
        DotFits(NameExpr(s.first), NameExpr(s.second));
      }
    }
  }

  lemma {:induction false} OperatorFits(s: Syntax)
    requires s.Paren? || s.Collate? || s.Cast? || s.NullTest? || s.Prefix? || s.Binary?
    ensures Fits(Build(s).pExpr)
    decreases s, 0
  {
    match s
    case Paren(_, inner, _) => BuildFits(inner);
    case Collate(e, _) => BuildFits(e);
    case Cast(_, e, _, _) => BuildFits(e);
    case NullTest(_, e, _) => BuildFits(e);
    case Prefix(_, _, e) => BuildFits(e);
    case Binary(_, l, r) =>
      BuildFits(l);
      BuildFits(r);
  }

  lemma {:induction false} InRowsFits(s: Syntax)
    requires s.InSelect? || s.InTable?
    ensures Fits(Build(s).pExpr)
    decreases s, 0
  {
    BuildFits(s.e);
    NotExprFits(s.negated, InExpr(Build(s.e).pExpr, if s.InSelect? then s.select else s.table));
  }

  lemma {:induction false} ListsFit(s: Syntax)
    requires s.Call? || s.Vector? || s.InList?
    ensures Fits(Build(s).pExpr)
    decreases s, 0
  {
    hide Fits;
    match s
    case Call(fn, distinct, args, _) =>
      BuildAllFits(args);
      ListFits(FunctionExpr(distinct, fn, BuildAll(args)));
    case Vector(_, items, _) =>
      BuildAllFits(items);
      ListFits(PExpr(TkVector, None, None, NoText).(pList := BuildAll(items)));
    case InList(negated, e, items, _) =>
      BuildFits(e);
      BuildAllFits(items);
      InFits(negated, Build(e).pExpr, BuildAll(items));
  }

  lemma {:induction false} LikeFits(s: Syntax)
    requires s.Like?
    ensures Fits(Build(s).pExpr)
    decreases s, 0
  {
    hide Fits, PackLike, NotExpr;
    BuildFits(s.l);
    BuildFits(s.r);
    if s.escape.Some? {
      BuildFits(s.escape.value);
    }
    var packed := PackLike(s.negated, s.likeop.n);
    var extra := if s.escape.Some? then [Build(s.escape.value).pExpr] else [];
    var call := FunctionExpr(false, Token(s.likeop.z, LikeLength(packed)),
                             [Build(s.r).pExpr, Build(s.l).pExpr] + extra);
    ListFits(call);
    NotExprFits(LikeIsNegated(packed), call);
  }

  lemma {:induction false} BetweenFits(s: Syntax)
    requires s.Between?
    ensures Fits(Build(s).pExpr)
    decreases s, 0
  {
    hide Fits, NotExpr;
    BuildFits(s.e);
    BuildFits(s.lo);
    BuildFits(s.hi);
    var test := BetweenExpr(Build(s.e).pExpr, Build(s.lo).pExpr, Build(s.hi).pExpr);
    ListFits(test);
    NotExprFits(s.negated, test);
  }

  lemma {:induction false} IsFits(s: Syntax)
    requires s.Is?
    ensures Fits(Build(s).pExpr)
    decreases s, 0
  {
    BuildFits(s.l);
    BuildFits(s.r);
  }

  lemma {:induction false} CaseFits(s: Syntax)
    requires s.Case?
    ensures Fits(Build(s).pExpr)
    decreases s, 0
  {
    hide Fits;
    BuildArmsFits(s.arms);
    if s.operand.Some? {
      BuildFits(s.operand.value);
    }
    if s.other.Some? {
      BuildFits(s.other.value);
    }
    var left := if s.operand.Some? then Some(Build(s.operand.value).pExpr) else None;
    ListFits(CaseExpr(left, BuildArms(s.arms) + (if s.other.Some? then [Build(s.other.value).pExpr] else [])));
  }

  // ----- nodes -----

  function Nodes(e: Expr): nat
    decreases e, 1
  {
    1 + NodesOpt(e.pLeft) + NodesOpt(e.pRight) + NodesAll(e.pList)
  }

  function NodesOpt(e: Option<Expr>): nat
    decreases e, 2
  {
    if e.Some? then Nodes(e.value) else 0
  }

  function NodesAll(es: seq<Expr>): nat
    decreases es, 0
  {
    if es == [] then 0 else NodesAll(es[..|es| - 1]) + Nodes(es[|es| - 1])
  }

  function Bit(b: bool): nat { if b then 1 else 0 }

  /** A literal NULL, possibly in parentheses. */
  predicate IsNullLiteral(s: Syntax) {
    match s
    case Leaf(kind, _) => kind == NullLit
    case Paren(_, inner, _) => IsNullLiteral(inner)
    case _ => false
  }

  function OperationsIn(es: seq<Syntax>): nat
    decreases es, 0
  {
    if es == [] then 0 else OperationsIn(es[..|es| - 1]) + Operations(es[|es| - 1])
  }

  function OperationsInArms(arms: seq<(Syntax, Syntax)>): nat
    decreases arms, 0
  {
    if arms == [] then 0
    else OperationsInArms(arms[..|arms| - 1]) + OperationsInArm(arms[|arms| - 1])
  }

  function OperationsInArm(arm: (Syntax, Syntax)): nat
    decreases arm, 0
  {
    Operations(arm.0) + Operations(arm.1)
  }

  /** One for each name, constant, operator, call and NOT that is written, apart from what IN with
      no item and IS with a literal NULL make superfluous. */
  function Operations(s: Syntax): nat
    decreases s, 1
  {
    match s
    case Leaf(_, _) => 1
    case Paren(_, inner, _) => Operations(inner)
    case Dotted(_, _, third) => if third.Some? then 5 else 3
    case Collate(e, _) => 1 + Operations(e)
    case Cast(_, e, _, _) => 1 + Operations(e)
    case Call(_, _, args, _) => 1 + OperationsIn(args)
    case Vector(_, items, _) => 1 + OperationsIn(items)
    case Binary(_, l, r) => 1 + Operations(l) + Operations(r)
    case Like(negated, _, l, r, escape) =>
      1 + Bit(negated) + Operations(l) + Operations(r) + (if escape.Some? then Operations(escape.value) else 0)
    case NullTest(_, e, _) => 1 + Operations(e)
    case Is(_, l, r) => 1 + Operations(l) + (if IsNullLiteral(r) then 0 else Operations(r))
    case Prefix(_, _, e) => 1 + Operations(e)
    case Between(negated, e, lo, hi) => 1 + Bit(negated) + Operations(e) + Operations(lo) + Operations(hi)
    case InList(negated, e, items, _) =>
      if items == [] then 1
      else 1 + Bit(negated && |items| > 1) + Operations(e) + OperationsIn(items)
    case InSelect(negated, e, _, _) => 1 + Bit(negated) + Operations(e)
    case InTable(negated, e, _, _, _, _) => 1 + Bit(negated) + Operations(e)
    case SubSelect(_, _, _) => 1
    case Exists(_, _, _) => 1
    case Case(_, operand, arms, other, _) =>
      1 + (if operand.Some? then Operations(operand.value) else 0) + OperationsInArms(arms)
      + (if other.Some? then Operations(other.value) else 0)
  }

  lemma NodesPush(es: seq<Expr>, e: Expr)
    ensures NodesAll(es + [e]) == NodesAll(es) + Nodes(e)
  {
    assert (es + [e])[..|es + [e]| - 1] == es;
  }

  lemma NodesTwo(a: Expr, b: Expr)
    ensures NodesAll([a]) == Nodes(a) && NodesAll([a, b]) == Nodes(a) + Nodes(b)
  {
    hide Nodes;
    NodesPush([], a);
    NodesPush([a], b);
    assert [a, b] == [a] + [b] && [] + [a] == [a];
  }

  lemma NotNodes(negated: bool, e: Expr)
    ensures Nodes(NotExpr(negated, e)) == Nodes(e) + Bit(negated)
  {
  }

  lemma DotNodes(a: Expr, b: Expr)
    ensures Nodes(DotExpr(a, b)) == 1 + Nodes(a) + Nodes(b)
    ensures a.pLeft == None && a.pRight == None && a.pList == [] ==> Nodes(a) == 1
    ensures b.pLeft == None && b.pRight == None && b.pList == [] ==> Nodes(b) == 1
  {
  }

  lemma InNodes(negated: bool, e: Expr, items: seq<Expr>)
    ensures Nodes(BuildIn(negated, e, items))
         == if items == [] then 1 else 1 + Bit(negated && |items| > 1) + Nodes(e) + NodesAll(items)
  {
    if |items| == 1 {
      NodesTwo(items[0], items[0]);
      assert items == [items[0]];
    } else if |items| > 1 {
      NotNodes(negated, PExpr(TkIn, Some(e), None, NoText).(pList := items));
    }
  }

  lemma {:induction false} BuildAllNodes(es: seq<Syntax>)
    requires ShortLikes(es)
    ensures NodesAll(BuildAll(es)) == OperationsIn(es)
    decreases es, 0
  {
    hide Nodes, Build, Operations;
    if es != [] {
      var n := |es| - 1;
      BuildAllNodes(es[..n]);
      BuildNodes(es[n]);
      NodesPush(BuildAll(es[..n]), Build(es[n]).pExpr);
    }
  }

  lemma {:induction false} BuildArmsNodes(arms: seq<(Syntax, Syntax)>)
    requires forall i :: 0 <= i < |arms| ==> ShortLike(arms[i].0) && ShortLike(arms[i].1)
    ensures NodesAll(BuildArms(arms)) == OperationsInArms(arms)
    decreases arms, 0
  {
    hide Nodes, Build, Operations;
    if arms != [] {
      var n := |arms| - 1;
      BuildArmsNodes(arms[..n]);
      BuildArmNodes(arms[n], BuildArms(arms[..n]));
    }
  }

  lemma {:induction false} BuildArmNodes(arm: (Syntax, Syntax), before: seq<Expr>)
    requires ShortLike(arm.0) && ShortLike(arm.1)
    ensures NodesAll(before + BuildArm(arm)) == NodesAll(before) + OperationsInArm(arm)
    decreases arm, 0
  {
    hide Nodes, Build, Operations;
    var a, b := Build(arm.0).pExpr, Build(arm.1).pExpr;
    BuildNodes(arm.0);
    BuildNodes(arm.1);
    NodesPush(before, a);
    NodesPush(before + [a], b);
    assert before + BuildArm(arm) == before + [a] + [b];
  }

  /** Only a literal NULL builds a NULL node. */
  lemma {:induction false} NullNode(s: Syntax)
    ensures Build(s).pExpr.op == TkNull <==> IsNullLiteral(s)
  {
    hide BuildAll, BuildArms;
    match s
    case Paren(_, inner, _) => NullNode(inner);
    case _ =>
  }

  /** The tree has one node for each operation that is written. */
  lemma {:induction false} BuildNodes(s: Syntax)
    requires ShortLike(s)
    ensures Nodes(Build(s).pExpr) == Operations(s)
    decreases s, 1
  {
    hide Nodes, Build, Operations;
    match s
    case Call(_, _, _, _) => ListNodes(s);
    case Vector(_, _, _) => ListNodes(s);
    case Like(_, _, _, _, _) => LikeNodes(s);
    case InList(_, _, _, _) => ListNodes(s);
    case Case(_, _, _, _, _) => CaseNodes(s);
    case Between(_, _, _, _) => BetweenNodes(s);
    case Is(_, _, _) => IsNodes(s);
    case InSelect(_, _, _, _) => InRowsNodes(s);
    case InTable(_, _, _, _, _, _) => InRowsNodes(s);
    case Leaf(_, _) => LeafNodes(s);
    case Dotted(_, _, _) => LeafNodes(s);
    case SubSelect(_, _, _) => LeafNodes(s);
    case Exists(_, _, _) => LeafNodes(s);
    case _ => OperatorNodes(s);
  }

  lemma LeafNodes(s: Syntax)
    requires s.Leaf? || s.Dotted? || s.SubSelect? || s.Exists?
    ensures Nodes(Build(s).pExpr) == Operations(s)
  {
    if s.Dotted? {
      hide Nodes;
      DotNodes(NameExpr(s.first), NameExpr(s.second));
      if s.third.Some? {
        DotNodes(NameExpr(s.second), NameExpr(s.third.value));
        DotNodes(NameExpr(s.first), DotExpr(NameExpr(s.second), NameExpr(s.third.value)));
      }
    }
  }

  lemma {:induction false} OperatorNodes(s: Syntax)
    requires s.Paren? || s.Collate? || s.Cast? || s.NullTest? || s.Prefix? || s.Binary?
    requires ShortLike(s)
    ensures Nodes(Build(s).pExpr) == Operations(s)
    decreases s, 0
  {
    match s
    case Paren(_, inner, _) => BuildNodes(inner);
    case Collate(e, _) => BuildNodes(e);
    case Cast(_, e, _, _) => BuildNodes(e);
    case NullTest(_, e, _) => BuildNodes(e);
    case Prefix(_, _, e) => BuildNodes(e);
    case Binary(_, l, r) =>
      BuildNodes(l);
      BuildNodes(r);
  }

  lemma {:induction false} InRowsNodes(s: Syntax)
    requires s.InSelect? || s.InTable?
    requires ShortLike(s)
    ensures Nodes(Build(s).pExpr) == Operations(s)
    decreases s, 0
  {
    BuildNodes(s.e);
    NotNodes(s.negated, InExpr(Build(s.e).pExpr, if s.InSelect? then s.select else s.table));
  }

  /** A node with nothing but a list. */
  lemma OnlyList(e: Expr)
    requires e.pLeft.None? && e.pRight.None?
    ensures Nodes(e) == 1 + NodesAll(e.pList)
  {
    hide NodesAll;
  }

  lemma {:induction false} ListNodes(s: Syntax)
    requires (s.Call? || s.Vector? || s.InList?) && ShortLike(s)
    ensures Nodes(Build(s).pExpr) == Operations(s)
    decreases s, 0
  {
    hide Nodes, NodesAll, BuildIn, BuildAll, OperationsIn;
    match s
    case Call(fn, distinct, args, _) =>
      BuildAllNodes(args);
      OnlyList(FunctionExpr(distinct, fn, BuildAll(args)));
    case Vector(_, items, _) =>
      BuildAllNodes(items);
      OnlyList(PExpr(TkVector, None, None, NoText).(pList := BuildAll(items)));
    case InList(negated, e, items, _) =>
      BuildNodes(e);
      BuildAllNodes(items);
      InNodes(negated, Build(e).pExpr, BuildAll(items));
  }

  lemma {:induction false} LikeNodes(s: Syntax)
    requires s.Like? && ShortLike(s)
    ensures Nodes(Build(s).pExpr) == Operations(s)
    decreases s, 0
  {
    hide NotExpr;
    BuildNodes(s.l);
    BuildNodes(s.r);
    LikeRoundTrip(s.negated, s.likeop.n);
    var a, b := Build(s.l).pExpr, Build(s.r).pExpr;
    NodesTwo(b, a);
    var list := [b, a] + (if s.escape.Some? then [Build(s.escape.value).pExpr] else []);
    if s.escape.Some? {
      BuildNodes(s.escape.value);
      NodesPush([b, a], Build(s.escape.value).pExpr);
    } else {
      assert list == [b, a];
    }
    NotNodes(s.negated, FunctionExpr(false, s.likeop, list));
  }

  lemma {:induction false} BetweenNodes(s: Syntax)
    requires s.Between? && ShortLike(s)
    ensures Nodes(Build(s).pExpr) == Operations(s)
    decreases s, 0
  {
    BuildNodes(s.e);
    BuildNodes(s.lo);
    BuildNodes(s.hi);
    NodesTwo(Build(s.lo).pExpr, Build(s.hi).pExpr);
    NotNodes(s.negated, BetweenExpr(Build(s.e).pExpr, Build(s.lo).pExpr, Build(s.hi).pExpr));
  }

  lemma {:induction false} IsNodes(s: Syntax)
    requires s.Is? && ShortLike(s)
    ensures Nodes(Build(s).pExpr) == Operations(s)
    decreases s, 0
  {
    BuildNodes(s.l);
    BuildNodes(s.r);
    NullNode(s.r);
  }

  lemma {:induction false} CaseNodes(s: Syntax)
    requires s.Case? && ShortLike(s)
    ensures Nodes(Build(s).pExpr) == Operations(s)
    decreases s, 0
  {
    BuildArmsNodes(s.arms);
    if s.operand.Some? {
      BuildNodes(s.operand.value);
    }
    if s.other.Some? {
      BuildNodes(s.other.value);
      NodesPush(BuildArms(s.arms), Build(s.other.value).pExpr);
    } else {
      assert BuildArms(s.arms) + [] == BuildArms(s.arms);
    }
  }
}

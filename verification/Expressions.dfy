/** Expression actions: what the grammar builds for IN, IS, LIKE, BETWEEN, CASE and the rest,
    proved to mean what the syntax means and to span its text. */
module Expressions {
  import opened Wrappers
  import opened Machine

  // ----- syntax -----

  datatype LeafKind = NullLit | Number | Str | Name | Variable | CurrentTime

  datatype BinOp = And | Or | Lt | Gt | Ge | Le | BitAnd | BitOr | LShift | RShift
                 | Plus | Minus | Star | Slash | Rem | Concat | EqOp | NeOp

  datatype PrefixOp = NotOp | BitNot | Negate | UPlus

  /** One constructor for each form of `expr`, with the tokens its action looks at. */
  datatype Syntax =
    | Leaf(kind: LeafKind, t: Token)
    | Paren(lp: Token, inner: Syntax, rp: Token)
    | Dotted(first: Token, second: Token, third: Option<Token>)
    | Collate(e: Syntax, name: Token)
    | Cast(kw: Token, e: Syntax, typetoken: Token, rp: Token)
    | Call(fn: Token, distinct: bool, args: seq<Syntax>, rp: Token)
    | Vector(lp: Token, items: seq<Syntax>, rp: Token)
    | Binary(op: BinOp, l: Syntax, r: Syntax)
    | Like(negated: bool, likeop: Token, l: Syntax, r: Syntax, escape: Option<Syntax>)
    | NullTest(notNull: bool, e: Syntax, test: Token)
    | Is(negated: bool, l: Syntax, r: Syntax)
    | Prefix(pre: PrefixOp, opTok: Token, e: Syntax)
    | Between(negated: bool, e: Syntax, lo: Syntax, hi: Syntax)
    | InList(negated: bool, e: Syntax, items: seq<Syntax>, rp: Token)
    | InSelect(negated: bool, e: Syntax, select: nat, rp: Token)
    | InTable(negated: bool, e: Syntax, table: nat, nm: Token, dbnm: Option<Token>, closing: Option<Token>)
    | SubSelect(lp: Token, select: nat, rp: Token)
    | Exists(kw: Token, select: nat, rp: Token)
    | Case(kw: Token, operand: Option<Syntax>, arms: seq<(Syntax, Syntax)>, other: Option<Syntax>, end: Token)

  // ----- the tree that the actions build -----

  datatype Op =
    | TkNull | TkLeaf(kind: LeafKind) | TkInteger | TkDot | TkCollate | TkCast | TkFunction(distinct: bool) | TkVector
    | TkBinary(bin: BinOp) | TkIs | TkIsNot | TkIsNull | TkNotNull | TkPrefix(pre: PrefixOp)
    | TkBetween | TkIn | TkSelect | TkExists | TkCase

  /** A source token, one of the two constant integer tokens, or none. */
  datatype Text = Source(t: Token) | Constant(k: nat) | NoText

  datatype Expr = Expr(
    op: Op,
    text: Text,
    pLeft: Option<Expr>,
    pRight: Option<Expr>,
    pList: seq<Expr>,
    pSelect: Option<nat>)

  datatype Span = Span(pExpr: Expr, zStart: nat, zEnd: nat)

  function PExpr(op: Op, l: Option<Expr>, r: Option<Expr>, text: Text): Expr {
    Expr(op, text, l, r, [], None)
  }

  function LeafOp(kind: LeafKind): Op { if kind == NullLit then TkNull else TkLeaf(kind) }

  function NameExpr(t: Token): Expr { PExpr(TkLeaf(Name), None, None, Source(t)) }

  function DotExpr(a: Expr, b: Expr): Expr { PExpr(TkDot, Some(a), Some(b), NoText) }

  function FunctionExpr(distinct: bool, name: Token, args: seq<Expr>): Expr {
    PExpr(TkFunction(distinct), None, None, Source(name)).(pList := args)
  }

  function BetweenExpr(e: Expr, lo: Expr, hi: Expr): Expr {
    PExpr(TkBetween, Some(e), None, NoText).(pList := [lo, hi])
  }

  function InExpr(e: Expr, select: nat): Expr {
    PExpr(TkIn, Some(e), None, NoText).(pSelect := Some(select))
  }

  function CaseExpr(operand: Option<Expr>, list: seq<Expr>): Expr {
    PExpr(TkCase, operand, None, NoText).(pList := list)
  }

  function End(t: Token): nat { t.z + t.n }

  // ----- helper routines, as functions -----

  function SpanOf(e: Expr, start: Token, end: Token): Span { Span(e, start.z, End(end)) }

  function LeafSpan(op: Op, t: Token): Span { Span(PExpr(op, None, None, Source(t)), t.z, End(t)) }

  function BinarySpan(op: Op, l: Span, r: Span): Span {
    Span(PExpr(op, Some(l.pExpr), Some(r.pExpr), NoText), l.zStart, r.zEnd)
  }

  function NotExpr(doNot: bool, e: Expr): Expr {
    if doNot then PExpr(TkPrefix(NotOp), Some(e), None, NoText) else e
  }

  function UnaryIfNull(y: Expr, a: Expr, op: Op): Expr {
    if y.op == TkNull then a.(op := op, pRight := None) else a
  }

  /** expr in_op LP exprlist RP: no item is a constant, one item a comparison. */
  function BuildIn(negated: bool, e: Expr, items: seq<Expr>): Expr {
    if items == [] then PExpr(TkInteger, None, None, Constant(if negated then 1 else 0))
    else if |items| == 1 then PExpr(TkBinary(if negated then NeOp else EqOp), Some(e), Some(items[0]), NoText)
    else NotExpr(negated, PExpr(TkIn, Some(e), None, NoText).(pList := items))
  }

  // ----- the NOT flag in the length of the LIKE token -----

  const BIT31: nat := 0x8000_0000

  /** likeop: NOT sets bit 31 of the 32-bit token length. */
  function PackLike(negated: bool, n: nat): nat {
    if negated && n < BIT31 then n + BIT31 else n
  }

  function LikeIsNegated(n: nat): bool { n >= BIT31 }

  function LikeLength(n: nat): nat { n % BIT31 }

  /** Flag and length are both recovered exactly when the length leaves bit 31 free. */
  lemma LikeRoundTrip(negated: bool, n: nat)
    requires n < 2 * BIT31
    ensures (LikeIsNegated(PackLike(negated, n)) == negated && LikeLength(PackLike(negated, n)) == n) <==> n < BIT31
  {
  }

  // ----- the actions -----

  function BuildAll(es: seq<Syntax>): (r: seq<Expr>)
    ensures |r| == |es|
    decreases es, 0
  {
    if es == [] then [] else BuildAll(es[..|es| - 1]) + [Build(es[|es| - 1]).pExpr]
  }

  /** The WHEN and THEN expressions, alternating. */
  function BuildArms(arms: seq<(Syntax, Syntax)>): (r: seq<Expr>)
    ensures |r| == 2 * |arms|
    decreases arms, 0
  {
    if arms == [] then []
    else
      BuildArms(arms[..|arms| - 1]) + BuildArm(arms[|arms| - 1])
  }

  function BuildArm(arm: (Syntax, Syntax)): (r: seq<Expr>)
    ensures |r| == 2
    decreases arm, 0
  {
    [Build(arm.0).pExpr] + [Build(arm.1).pExpr]
  }

  function Build(s: Syntax): Span
    decreases s, 1
  {
    match s
    case Leaf(kind, t) =>
      if kind == CurrentTime then SpanOf(FunctionExpr(false, t, []), t, t) else LeafSpan(LeafOp(kind), t)
    case Paren(lp, inner, rp) => SpanOf(Build(inner).pExpr, lp, rp)
    case Dotted(first, second, third) =>
      var rest := if third.Some? then DotExpr(NameExpr(second), NameExpr(third.value)) else NameExpr(second);
      SpanOf(DotExpr(NameExpr(first), rest), first, if third.Some? then third.value else second)
    case Collate(e, name) =>
      var a := Build(e);
      Span(PExpr(TkCollate, Some(a.pExpr), None, Source(name)), a.zStart, End(name))
    case Cast(kw, e, typetoken, rp) => SpanOf(PExpr(TkCast, Some(Build(e).pExpr), None, Source(typetoken)), kw, rp)
    case Call(fn, distinct, args, rp) =>
      SpanOf(FunctionExpr(distinct, fn, BuildAll(args)), fn, rp)
    case Vector(lp, items, rp) =>
      SpanOf(PExpr(TkVector, None, None, NoText).(pList := BuildAll(items)), lp, rp)
    case Binary(op, l, r) => BinarySpan(TkBinary(op), Build(l), Build(r))
    case Like(negated, likeop, l, r, escape) =>
      var packed := PackLike(negated, likeop.n);
      var a, b := Build(l), Build(r);
      var name := Token(likeop.z, LikeLength(packed));
      var list := [b.pExpr, a.pExpr] + (if escape.Some? then [Build(escape.value).pExpr] else []);
      Span(NotExpr(LikeIsNegated(packed), FunctionExpr(false, name, list)), a.zStart,
           if escape.Some? then Build(escape.value).zEnd else b.zEnd)
    case NullTest(notNull, e, test) =>
      var a := Build(e);
      Span(PExpr(if notNull then TkNotNull else TkIsNull, Some(a.pExpr), None, NoText), a.zStart, End(test))
    case Is(negated, l, r) =>
      var a, b := Build(l), Build(r);
      var both := BinarySpan(if negated then TkIsNot else TkIs, a, b);
      both.(pExpr := UnaryIfNull(b.pExpr, both.pExpr, if negated then TkNotNull else TkIsNull))
    case Prefix(pre, opTok, e) =>
      var a := Build(e);
      Span(PExpr(TkPrefix(pre), Some(a.pExpr), None, NoText), opTok.z, a.zEnd)
    case Between(negated, e, lo, hi) =>
      var a, b, c := Build(e), Build(lo), Build(hi);
      Span(NotExpr(negated, BetweenExpr(a.pExpr, b.pExpr, c.pExpr)), a.zStart, c.zEnd)
    case InList(negated, e, items, rp) =>
      var a := Build(e);
      Span(BuildIn(negated, a.pExpr, BuildAll(items)), a.zStart, End(rp))
    case InSelect(negated, e, select, rp) =>
      var a := Build(e);
      Span(NotExpr(negated, InExpr(a.pExpr, select)), a.zStart, End(rp))
    case InTable(negated, e, table, nm, dbnm, _) =>
      var a := Build(e);
      Span(NotExpr(negated, InExpr(a.pExpr, table)), a.zStart, if dbnm.Some? then End(dbnm.value) else End(nm))
    case SubSelect(lp, select, rp) =>
      SpanOf(PExpr(TkSelect, None, None, NoText).(pSelect := Some(select)), lp, rp)
    case Exists(kw, select, rp) =>
      SpanOf(PExpr(TkExists, None, None, NoText).(pSelect := Some(select)), kw, rp)
    case Case(kw, operand, arms, other, end) =>
      var left := if operand.Some? then Some(Build(operand.value).pExpr) else None;
      var list := BuildArms(arms) + (if other.Some? then [Build(other.value).pExpr] else []);
      SpanOf(CaseExpr(left, list), kw, end)
  }

  // ----- spans -----

  /** The leftmost sub-expression that starts where s starts. */
  function Leftmost(s: Syntax): Syntax {
    match s
    case Collate(e, _) => Leftmost(e)
    case Binary(_, l, _) => Leftmost(l)
    case Like(_, _, l, _, _) => Leftmost(l)
    case NullTest(_, e, _) => Leftmost(e)
    case Is(_, l, _) => Leftmost(l)
    case Between(_, e, _, _) => Leftmost(e)
    case InList(_, e, _, _) => Leftmost(e)
    case InSelect(_, e, _, _) => Leftmost(e)
    case InTable(_, e, _, _, _, _) => Leftmost(e)
    case _ => s
  }

  /** The rightmost sub-expression that ends where s ends. */
  function Rightmost(s: Syntax): Syntax {
    match s
    case Binary(_, _, r) => Rightmost(r)
    case Like(_, _, _, r, escape) => if escape.Some? then Rightmost(escape.value) else Rightmost(r)
    case Is(_, _, r) => Rightmost(r)
    case Prefix(_, _, e) => Rightmost(e)
    case Between(_, _, _, hi) => Rightmost(hi)
    case _ => s
  }

  /** The first token of the text of s. */
  function FirstToken(s: Syntax): Token {
    match Leftmost(s)
    case Leaf(_, t) => t
    case Paren(lp, _, _) => lp
    case Dotted(first, _, _) => first
    case Cast(kw, _, _, _) => kw
    case Call(fn, _, _, _) => fn
    case Vector(lp, _, _) => lp
    case Prefix(_, opTok, _) => opTok
    case SubSelect(lp, _, _) => lp
    case Exists(kw, _, _) => kw
    case Case(kw, _, _, _, _) => kw
    case _ => Token(0, 0)
  }

  /** The last token of the text of s. */
  function LastToken(s: Syntax): Token {
    match Rightmost(s)
    case Leaf(_, t) => t
    case Paren(_, _, rp) => rp
    case Dotted(_, second, third) => if third.Some? then third.value else second
    case Collate(_, name) => name
    case Cast(_, _, _, rp) => rp
    case Call(_, _, _, rp) => rp
    case Vector(_, _, rp) => rp
    case NullTest(_, _, test) => test
    case InList(_, _, _, rp) => rp
    case InSelect(_, _, _, rp) => rp
    case InTable(_, _, _, nm, dbnm, closing) =>
      if closing.Some? then closing.value else if dbnm.Some? then dbnm.value else nm
    case SubSelect(_, _, rp) => rp
    case Exists(_, _, rp) => rp
    case Case(_, _, _, _, end) => end
    case _ => Token(0, 0)
  }

  /** s ends in `IN table(...)`. */
  predicate EndsInTableArguments(s: Syntax) {
    Rightmost(s).InTable? && Rightmost(s).closing.Some?
  }

  /** The name of the table that s ends in: the part after the dot, if there is one. */
  function TableName(s: Syntax): Token
    requires Rightmost(s).InTable?
  {
    var t := Rightmost(s);
    if t.dbnm.Some? then t.dbnm.value else t.nm
  }

  /** The parenthesis that ends `IN table(...)` comes after the name of the table. */
  predicate ClosesAfterName(s: Syntax) {
    EndsInTableArguments(s) ==> End(TableName(s)) < End(Rightmost(s).closing.value)
  }

  lemma {:induction false} StartsAtLeftmost(s: Syntax)
    ensures Build(s).zStart == FirstToken(s).z
  {
    hide NotExpr, BuildIn, UnaryIfNull, PackLike, BuildAll, BuildArms;
    match s
    case Collate(e, _) => StartsAtLeftmost(e);
    case Binary(_, l, _) => StartsAtLeftmost(l);
    case Like(_, _, l, _, _) => StartsAtLeftmost(l);
    case NullTest(_, e, _) => StartsAtLeftmost(e);
    case Is(_, l, _) => StartsAtLeftmost(l);
    case Between(_, e, _, _) => StartsAtLeftmost(e);
    case InList(_, e, _, _) => StartsAtLeftmost(e);
    case InSelect(_, e, _, _) => StartsAtLeftmost(e);
    case InTable(_, e, _, _, _, _) => StartsAtLeftmost(e);
    case _ =>
  }

  lemma {:induction false} EndsAtRightmost(s: Syntax)
    ensures Build(s).zEnd == Build(Rightmost(s)).zEnd
  {
    hide NotExpr, BuildIn, UnaryIfNull, PackLike, BuildAll, BuildArms;
    match s
    case Binary(_, _, r) => EndsAtRightmost(r);
    case Like(_, _, _, r, escape) =>
      if escape.Some? { EndsAtRightmost(escape.value); } else { EndsAtRightmost(r); }
    case Is(_, _, r) => EndsAtRightmost(r);
    case Prefix(_, _, e) => EndsAtRightmost(e);
    case Between(_, _, _, hi) => EndsAtRightmost(hi);
    case _ =>
  }

  lemma {:induction false} RightmostEndsItself(s: Syntax)
    ensures var t := Rightmost(s); !t.Binary? && !t.Like? && !t.Is? && !t.Prefix? && !t.Between?
  {
    match s
    case Binary(_, _, r) => RightmostEndsItself(r);
    case Like(_, _, _, r, escape) =>
      if escape.Some? { RightmostEndsItself(escape.value); } else { RightmostEndsItself(r); }
    case Is(_, _, r) => RightmostEndsItself(r);
    case Prefix(_, _, e) => RightmostEndsItself(e);
    case Between(_, _, _, hi) => RightmostEndsItself(hi);
    case _ =>
  }

  /** Every expression spans its text, from the first byte of its first token to the end of its
      last, except one that ends in a table name with an argument list: there the span ends with
      the name, short of the parenthesis. */
  lemma SpanIsExact(s: Syntax)
    ensures Build(s).zStart == FirstToken(s).z
    ensures !EndsInTableArguments(s) ==> Build(s).zEnd == End(LastToken(s))
    ensures EndsInTableArguments(s) ==> Build(s).zEnd == End(TableName(s))
    ensures ClosesAfterName(s) ==> (Build(s).zEnd == End(LastToken(s)) <==> !EndsInTableArguments(s))
  {
    hide NotExpr, BuildIn, UnaryIfNull, PackLike, BuildAll, BuildArms;
    StartsAtLeftmost(s);
    EndsAtRightmost(s);
    RightmostEndsItself(s);
  }

  /** `x IN t(y)` is such an expression: its span covers the 6 bytes of `x IN t` out of 9.  Of
      `x IN main.t(y)` it covers the 11 bytes of `x IN main.t` out of 14. */
  lemma TableArgumentsAreCutOff()
    ensures
      var s := InTable(false, Syntax.Leaf(Name, Token(0, 1)), 0, Token(5, 1), None, Some(Token(8, 1)));
      && ClosesAfterName(s) && EndsInTableArguments(s)
      && Build(s).zStart == 0 && Build(s).zEnd == 6 && End(LastToken(s)) == 9
    ensures
      var s := InTable(false, Syntax.Leaf(Name, Token(0, 1)), 0, Token(5, 4), Some(Token(10, 1)), Some(Token(13, 1)));
      && ClosesAfterName(s) && EndsInTableArguments(s)
      && Build(s).zStart == 0 && Build(s).zEnd == 11 && End(LastToken(s)) == 14
  {
    var s := InTable(false, Syntax.Leaf(Name, Token(0, 1)), 0, Token(5, 1), None, Some(Token(8, 1)));
    assert Rightmost(s) == s;
    var t := InTable(false, Syntax.Leaf(Name, Token(0, 1)), 0, Token(5, 4), Some(Token(10, 1)), Some(Token(13, 1)));
    assert Rightmost(t) == t;
  }

  // ----- type tokens -----

  /** The tokens lie one after another in the text. */
  predicate InOrder(ts: seq<Token>) {
    forall i, j :: 0 <= i < j < |ts| ==> End(ts[i]) <= ts[j].z
  }

  /** typename ::= typename ID|STRING: stretch the token over one more word. */
  function TypeName(words: seq<Token>): (t: Token)
    requires words != [] && InOrder(words)
    ensures t.z == words[0].z && End(t) == End(words[|words| - 1])
  {
    var last := words[|words| - 1];
    if |words| == 1 then last
    else
      var before := TypeName(words[..|words| - 1]);
      Token(before.z, last.n + (last.z - before.z))
  }

  /** typetoken ::= typename LP signed [COMMA signed] RP: stretch the token to the parenthesis. */
  function TypeToken(words: seq<Token>, rp: Option<Token>): (t: Token)
    requires words != [] && InOrder(words)
    requires rp.Some? ==> InOrder(words + [rp.value])
    ensures t.z == words[0].z
    ensures End(t) == End(if rp.Some? then rp.value else words[|words| - 1])
  {
    var name := TypeName(words);
    if rp.Some? then
      assert (words + [rp.value])[0] == words[0] && (words + [rp.value])[|words|] == rp.value;
      Token(name.z, End(rp.value) - name.z)
    else name
  }
}

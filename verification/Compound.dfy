/** Compound SELECT statements: what the grammar actions build, on values.

    A chain lists the terms from its head along pPrior: the last arm of the statement first.
    Each term holds the operator that joins it to everything before it.
 */
module Compound {

  datatype Op = Plain | All | Union | Except | Intersect

  /** The bits of selFlags that the actions touch. */
  datatype Flag = SfDistinct | SfAll | SfCompound | SfValues | SfMultiValue

  predicate Multi(flags: set<Flag>) { SfMultiValue in flags }

  function ClearMulti(flags: set<Flag>): set<Flag> { flags - {SfMultiValue} }

  /** Where the rows of a term come from: a SELECT core, one row of VALUES, or a subquery. */
  datatype Body = Core(id: nat) | Row(id: nat) | Sub(chain: seq<Term>)

  datatype Term = Term(op: Op, flags: set<Flag>, body: Body)

  // ----- the syntax and its meaning -----

  /** `oneselect`: a SELECT core, with its DISTINCT or ALL flag, or VALUES with its rows. */
  datatype OneSelect = Select(id: nat, distinct: Distinct) | Values(first: nat, more: seq<nat>)

  datatype Distinct = NoFlag | Distinct | AllRows

  function DistinctFlag(d: Distinct): set<Flag> {
    match d
    case NoFlag => {}
    case Distinct => {SfDistinct}
    case AllRows => {SfAll}
  }

  /** `selectnowith`: left associative by the grammar. */
  datatype Statement = One(s: OneSelect) | Then(left: Statement, op: Op, right: OneSelect)

  /** Any meaning for cores, rows, the removal of duplicates and the operators. */
  datatype Meaning<!R> = Meaning(core: nat -> R, row: nat -> R, unique: R -> R, apply: (Op, R, R) -> R)

  /** VALUES means the UNION ALL of its rows. */
  function RowsMean<R>(m: Meaning<R>, first: nat, more: seq<nat>): R {
    if more == [] then m.row(first)
    else m.apply(All, RowsMean(m, first, more[..|more| - 1]), m.row(more[|more| - 1]))
  }

  function OneMeans<R>(m: Meaning<R>, s: OneSelect): R {
    match s
    case Select(id, d) => if d == Distinct.Distinct then m.unique(m.core(id)) else m.core(id)
    case Values(first, more) => RowsMean(m, first, more)
  }

  /** The left-associative meaning, each right operand taken as a whole. */
  function Means<R>(m: Meaning<R>, c: Statement): R {
    match c
    case One(s) => OneMeans(m, s)
    case Then(left, op, right) => m.apply(op, Means(m, left), OneMeans(m, right))
  }

  // ----- what a chain computes -----

  /** Each term's operator applied to everything along pPrior and the term itself. */
  function Eval<R>(m: Meaning<R>, chain: seq<Term>): R
    requires chain != []
    decreases chain, 1
  {
    if |chain| == 1 then EvalTerm(m, chain[0])
    else m.apply(chain[0].op, Eval(m, chain[1..]), EvalTerm(m, chain[0]))
  }

  /** The rows of one term alone, without duplicates if its flags say so. */
  function EvalTerm<R>(m: Meaning<R>, t: Term): R
    decreases t, 1
  {
    if SfDistinct in t.flags then m.unique(EvalBody(m, t.body)) else EvalBody(m, t.body)
  }

  function EvalBody<R>(m: Meaning<R>, body: Body): R
    decreases body, 0
  {
    match body
    case Core(id) => m.core(id)
    case Row(id) => m.row(id)
    case Sub(chain) => if chain == [] then m.row(0) else Eval(m, chain)
  }

  // ----- the actions -----

  /** parserDoubleLinkSelect, as far as the flags go. */
  function Linked(chain: seq<Term>): (r: seq<Term>)
    ensures |r| == |chain|
  {
    if |chain| < 2 then chain
    else seq(|chain|, i requires 0 <= i < |chain| => chain[i].(flags := chain[i].flags + {SfCompound}))
  }

  function Unmark(chain: seq<Term>): (r: seq<Term>)
    ensures |r| == |chain|
  {
    if chain == [] then [] else [chain[0].(flags := ClearMulti(chain[0].flags))] + chain[1..]
  }

  /** values ::= values COMMA LP exprlist RP */
  function AddRow(left: seq<Term>, row: nat): seq<Term> {
    [Term(All, {SfValues, SfMultiValue}, Row(row))] + Unmark(left)
  }

  /** selectnowith ::= selectnowith multiselect_op oneselect.  A right operand that is a
      chain becomes a subquery of a new term. */
  function AddArm(left: seq<Term>, op: Op, right: seq<Term>): seq<Term>
    requires right != []
  {
    var arm := if |right| > 1 then Term(Plain, {}, Sub(Linked(right))) else right[0];
    [Term(op, ClearMulti(arm.flags), arm.body)] + Unmark(left)
  }

  function BuildRows(first: nat, more: seq<nat>): (chain: seq<Term>)
    ensures |chain| == 1 + |more|
  {
    if more == [] then [Term(Plain, {SfValues}, Row(first))]
    else AddRow(BuildRows(first, more[..|more| - 1]), more[|more| - 1])
  }

  function BuildOne(s: OneSelect): (chain: seq<Term>)
    ensures chain != []
  {
    match s
    case Select(id, d) => [Term(Plain, DistinctFlag(d), Core(id))]
    case Values(first, more) => BuildRows(first, more)
  }

  function Build(c: Statement): (chain: seq<Term>)
    ensures chain != []
  {
    match c
    case One(s) => BuildOne(s)
    case Then(left, op, right) => AddArm(Build(left), op, BuildOne(right))
  }

  // ----- building preserves meaning -----

  /** Of the flags only SfDistinct matters to the value of a chain. */
  lemma {:induction false} EvalIgnoresFlags<R>(m: Meaning<R>, a: seq<Term>, b: seq<Term>)
    requires |a| == |b| > 0
    requires forall i :: 0 <= i < |a| ==>
      a[i].op == b[i].op && a[i].body == b[i].body && (SfDistinct in a[i].flags <==> SfDistinct in b[i].flags)
    ensures Eval(m, a) == Eval(m, b)
    decreases |a|
  {
    if |a| > 1 {
      EvalIgnoresFlags(m, a[1..], b[1..]);
    }
  }

  lemma EvalCons<R>(m: Meaning<R>, t: Term, left: seq<Term>)
    requires left != []
    ensures Eval(m, [t] + Unmark(left)) == m.apply(t.op, Eval(m, left), EvalTerm(m, t))
  {
    var chain := [t] + Unmark(left);
    assert chain[1..] == Unmark(left);
    EvalIgnoresFlags(m, Unmark(left), left);
  }

  lemma TermAlone<R>(m: Meaning<R>, t: Term)
    ensures Eval(m, [t]) == EvalTerm(m, t)
    ensures t.body.Core? ==>
      EvalTerm(m, t) == if SfDistinct in t.flags then m.unique(m.core(t.body.id)) else m.core(t.body.id)
    ensures t.body.Row? && SfDistinct !in t.flags ==> EvalTerm(m, t) == m.row(t.body.id)
  {
  }

  lemma {:induction false} RowsKeepMeaning<R>(m: Meaning<R>, first: nat, more: seq<nat>)
    ensures Eval(m, BuildRows(first, more)) == RowsMean(m, first, more)
    decreases |more|
  {
    if more == [] {
      TermAlone(m, Term(Plain, {SfValues}, Row(first)));
    } else {
      var n := |more| - 1;
      var row := Term(All, {SfValues, SfMultiValue}, Row(more[n]));
      RowsKeepMeaning(m, first, more[..n]);
      EvalCons(m, row, BuildRows(first, more[..n]));
      TermAlone(m, row);
    }
  }

  lemma OneKeepsMeaning<R>(m: Meaning<R>, s: OneSelect)
    ensures Eval(m, BuildOne(s)) == OneMeans(m, s)
  {
    match s
    case Select(id, d) => TermAlone(m, Term(Plain, DistinctFlag(d), Core(id)));
    case Values(first, more) => RowsKeepMeaning(m, first, more);
  }

  /** Whatever the operators mean, the chain built for a statement computes the statement's
      left-associative meaning, with each VALUES on the right as one operand. */
  lemma {:induction false} BuildKeepsMeaning<R>(m: Meaning<R>, c: Statement)
    ensures Eval(m, Build(c)) == Means(m, c)
    decreases c
  {
    match c
    case One(s) => OneKeepsMeaning(m, s);
    case Then(left, op, right) =>
      BuildKeepsMeaning(m, left);
      OneKeepsMeaning(m, right);
      var arm := BuildOne(right);
      if |arm| > 1 {
        EvalIgnoresFlags(m, Linked(arm), arm);
        EvalCons(m, Term(op, ClearMulti({}), Sub(Linked(arm))), Build(left));
      } else {
        EvalCons(m, Term(op, ClearMulti(arm[0].flags), arm[0].body), Build(left));
      }
  }

  /** Marking the terms as parts of a compound does not change what the chain computes. */
  lemma LinkedKeepsMeaning<R>(m: Meaning<R>, c: Statement)
    ensures Eval(m, Linked(Build(c))) == Means(m, c)
  {
    EvalIgnoresFlags(m, Linked(Build(c)), Build(c));
    BuildKeepsMeaning(m, c);
  }

  // ----- the multi-row flag -----

  lemma {:induction false} RowsFlag(first: nat, more: seq<nat>)
    ensures Multi(BuildRows(first, more)[0].flags) <==> more != []
  {
    if more != [] {
      assert BuildRows(first, more)[0].flags == {SfValues, SfMultiValue};
    }
  }

  /** The head of the finished chain is marked exactly when the whole statement is a VALUES
      with two or more rows. */
  lemma HeadFlag(c: Statement)
    ensures Multi(Build(c)[0].flags) <==> c.One? && c.s.Values? && c.s.more != []
  {
    match c
    case One(Select(_, _)) =>
    case One(Values(first, more)) => RowsFlag(first, more);
    case Then(left, op, right) =>
      var arm := BuildOne(right);
  }

  /** An operand is a chain only if it is a multi-row VALUES, and then its head is marked. */
  lemma OperandFlag(s: OneSelect)
    ensures |BuildOne(s)| > 1 <==> Multi(BuildOne(s)[0].flags)
  {
    HeadFlag(One(s));
  }

  lemma {:induction false} RowsMarkOnlyHead(first: nat, more: seq<nat>)
    ensures forall i :: 0 < i < |BuildRows(first, more)| ==> !Multi(BuildRows(first, more)[i].flags)
    decreases |more|
  {
    if more != [] {
      var left := BuildRows(first, more[..|more| - 1]);
      RowsMarkOnlyHead(first, more[..|more| - 1]);
      var chain := BuildRows(first, more);
      forall i | 0 < i < |chain|
        ensures !Multi(chain[i].flags)
      {
        assert chain[i] == Unmark(left)[i - 1];
      }
    }
  }

  /** No other term of the chain is marked. */
  lemma {:induction false} OnlyHeadIsMarked(c: Statement)
    ensures forall i :: 0 < i < |Build(c)| ==> !Multi(Build(c)[i].flags)
    decreases c
  {
    match c
    case One(Select(_, _)) =>
    case One(Values(first, more)) => RowsMarkOnlyHead(first, more);
    case Then(left, op, right) =>
      OnlyHeadIsMarked(left);
      var chain := Build(c);
      forall i | 0 < i < |chain|
        ensures !Multi(chain[i].flags)
      {
        assert chain[i] == Unmark(Build(left))[i - 1];
      }
  }

  /** Number of terms: one for each arm, and one more for each further row of a leading VALUES. */
  function Terms(c: Statement): nat {
    match c
    case One(Select(_, _)) => 1
    case One(Values(_, more)) => 1 + |more|
    case Then(left, _, _) => Terms(left) + 1
  }

  lemma {:induction false} ChainLength(c: Statement)
    ensures |Build(c)| == Terms(c)
    decreases c
  {
    match c
    case One(_) =>
    case Then(left, _, _) => ChainLength(left);
  }

  // ----- the other flags -----

  /** What an arm of the statement is to the chain: a core with its DISTINCT or ALL, one row of a
      leading VALUES, or the rows of a VALUES on the right, held by a subquery. */
  datatype Arm = CoreArm(distinct: Distinct) | RowArm | RowsArm(rows: nat)

  /** The arms from the head of the chain, last first. */
  function Arms(c: Statement): seq<Arm> {
    match c
    case One(Select(_, d)) => [CoreArm(d)]
    case One(Values(_, more)) => seq(1 + |more|, _ => RowArm)
    case Then(left, _, right) => [RightArm(right)] + Arms(left)
  }

  function RightArm(s: OneSelect): Arm {
    match s
    case Select(_, d) => CoreArm(d)
    case Values(_, more) => if more == [] then RowArm else RowsArm(1 + |more|)
  }

  /** Exactly the flags that the arm calls for: DISTINCT and ALL as written, SfValues for a row.
      A subquery has none of its own, and marks all its terms as rows of a compound. */
  predicate FlagsFit(t: Term, arm: Arm) {
    && (SfDistinct in t.flags <==> arm == CoreArm(Distinct.Distinct))
    && (SfAll in t.flags <==> arm == CoreArm(AllRows))
    && (SfValues in t.flags <==> arm == RowArm)
    && SfCompound !in t.flags
    && (match arm
        case CoreArm(_) => t.body.Core?
        case RowArm => t.body.Row?
        case RowsArm(rows) => t.body.Sub? && |t.body.chain| == rows && AllRowsOf(t.body.chain))
  }

  predicate AllRowsOf(chain: seq<Term>) {
    forall i :: 0 <= i < |chain| ==> IsRow(chain[i], {SfValues, SfCompound})
  }

  predicate IsRow(t: Term, flags: set<Flag>) {
    t.body.Row? && ClearMulti(t.flags) == flags
  }

  lemma {:induction false} RowsFit(first: nat, more: seq<nat>)
    ensures forall i :: 0 <= i <= |more| ==> IsRow(BuildRows(first, more)[i], {SfValues})
    decreases |more|
  {
    if more != [] {
      var left := BuildRows(first, more[..|more| - 1]);
      RowsFit(first, more[..|more| - 1]);
      UnmarkedRows(left);
      assert BuildRows(first, more)[1..] == Unmark(left);
    }
  }

  lemma UnmarkedRows(left: seq<Term>)
    requires forall i :: 0 <= i < |left| ==> IsRow(left[i], {SfValues})
    ensures forall i :: 0 <= i < |left| ==> IsRow(Unmark(left)[i], {SfValues})
  {
  }

  lemma RowFlags(t: Term)
    requires IsRow(t, {SfValues})
    ensures FlagsFit(t, RowArm)
  {
    assert forall f :: f in t.flags && f != SfMultiValue ==> f in ClearMulti(t.flags);
  }

  lemma ValuesFit(first: nat, more: seq<nat>)
    ensures forall i :: 0 <= i <= |more| ==> FlagsFit(BuildRows(first, more)[i], RowArm)
  {
    hide FlagsFit, IsRow, BuildRows;
    RowsFit(first, more);
    forall i | 0 <= i <= |more|
      ensures FlagsFit(BuildRows(first, more)[i], RowArm)
    {
      RowFlags(BuildRows(first, more)[i]);
    }
  }

  lemma UnmarkFits(left: seq<Term>, arms: seq<Arm>)
    requires |left| == |arms| && forall i :: 0 <= i < |left| ==> FlagsFit(left[i], arms[i])
    ensures forall i :: 0 <= i < |left| ==> FlagsFit(Unmark(left)[i], arms[i])
  {
  }

  lemma RightFits(op: Op, s: OneSelect)
    ensures FlagsFit(AddArm([], op, BuildOne(s))[0], RightArm(s))
  {
    match s
    case Select(_, _) =>
    case Values(first, more) => RowsFit(first, more);
  }

  /** Each term of the chain carries exactly the flags that its arm calls for, but for the mark of
      a VALUES with several rows. */
  lemma {:induction false} ArmFlags(c: Statement)
    ensures |Build(c)| == |Arms(c)| && forall i :: 0 <= i < |Arms(c)| ==> FlagsFit(Build(c)[i], Arms(c)[i])
    decreases c
  {
    match c
    case One(Select(_, _)) =>
    case One(Values(first, more)) => ValuesFit(first, more);
    case Then(left, op, right) =>
      ArmFlags(left);
      UnmarkFits(Build(left), Arms(left));
      RightFits(op, right);
      assert Build(c)[1..] == Unmark(Build(left));
  }
}

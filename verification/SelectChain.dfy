/** The Select objects behind a compound statement: the actions that allocate, relink and mark
    them in place, proved against the chains of module Compound. */
module SelectChain {
  import opened Compound

  /** A node of a SELECT core or of a row of VALUES has its columns in `source`; a wrapped
      operand has the head of a chain as its FROM clause, and `inner` is that chain. */
  class SelectNode {
    var op: Op
    var selFlags: set<Flag>
    var pPrior: SelectNode?
    var pNext: SelectNode?
    const pFrom: SelectNode?
    ghost const inner: seq<SelectNode>
    const source: Body

    /** sqlite3SelectNew. */
    constructor New(source: Body, pFrom: SelectNode?, ghost inner: seq<SelectNode>, flags: set<Flag>)
      ensures op == Plain && selFlags == flags && pPrior == null && pNext == null
      ensures this.source == source && this.pFrom == pFrom && this.inner == inner
    {
      op := Plain;
      selFlags := flags;
      pPrior := null;
      pNext := null;
      this.source := source;
      this.pFrom := pFrom;
      this.inner := inner;
    }
  }

  /** The nodes from a head along pPrior to null. */
  ghost predicate IsChain(nodes: seq<SelectNode>)
    reads nodes`pPrior
  {
    && nodes != []
    && (forall i :: 0 <= i < |nodes| - 1 ==> PriorIsNext(nodes, i))
    && nodes[|nodes| - 1].pPrior == null
  }

  ghost predicate PriorIsNext(nodes: seq<SelectNode>, i: nat)
    requires i < |nodes| - 1
    reads nodes`pPrior
  {
    nodes[i].pPrior == nodes[i + 1]
  }

  ghost predicate NoRepeats(nodes: seq<SelectNode>) {
    forall i, j :: 0 <= i < j < |nodes| ==> nodes[i] != nodes[j]
  }

  /** A chain that ends cannot visit a node twice. */
  lemma ChainIsAcyclic(nodes: seq<SelectNode>)
    requires IsChain(nodes)
    ensures NoRepeats(nodes)
  {
    forall i, j | 0 <= i < j < |nodes|
      ensures nodes[i] != nodes[j]
    {
      if nodes[i] == nodes[j] {
        var d := |nodes| - 1 - j;
        assert PriorIsNext(nodes, i + d);
        SameTails(nodes, i, j, d);
      }
    }
  }

  lemma {:induction false} SameTails(nodes: seq<SelectNode>, i: nat, j: nat, d: nat)
    requires IsChain(nodes) && i < j && j + d < |nodes| && nodes[i] == nodes[j]
    ensures nodes[i + d] == nodes[j + d]
  {
    if d > 0 {
      SameTails(nodes, i, j, d - 1);
      assert PriorIsNext(nodes, i + d - 1) && PriorIsNext(nodes, j + d - 1);
    }
  }

  // ----- the doubly linked fix-up -----

  /** Make every term's prior point back to it, mark all terms as parts of a compound, and
      report whether there are too many. */
  method ParserDoubleLinkSelect(p: SelectNode, mxSelect: int, ghost nodes: seq<SelectNode>) returns (tooMany: bool)
    requires IsChain(nodes) && nodes[0] == p
    modifies nodes`pNext, nodes`selFlags
    ensures |nodes| == 1 ==> p.pNext == old(p.pNext) && p.selFlags == old(p.selFlags)
    ensures |nodes| > 1 ==> p.pNext == null
    ensures |nodes| > 1 ==> forall i :: 0 < i < |nodes| ==> nodes[i].pNext == nodes[i - 1]
    ensures |nodes| > 1 ==> forall i :: 0 <= i < |nodes| ==> nodes[i].selFlags == old(nodes[i].selFlags) + {SfCompound}
    ensures tooMany <==> |nodes| > 1 && !Multi(old(p.selFlags)) && 0 < mxSelect < |nodes|
  {
    ChainIsAcyclic(nodes);
    assert |nodes| > 1 ==> PriorIsNext(nodes, 0);
    tooMany := false;
    if p.pPrior != null {
      var pNext: SelectNode? := null;
      var pLoop: SelectNode? := p;
      var cnt := 0;
      while pLoop != null
        invariant 0 <= cnt <= |nodes|
        invariant pLoop == (if cnt < |nodes| then nodes[cnt] else null)
        invariant pNext == (if cnt > 0 then nodes[cnt - 1] else null)
        invariant cnt > 0 ==> p.pNext == null
        invariant forall i :: 0 < i < cnt ==> nodes[i].pNext == nodes[i - 1]
        invariant forall i :: 0 <= i < cnt ==> nodes[i].selFlags == old(nodes[i].selFlags) + {SfCompound}
        invariant forall i :: cnt <= i < |nodes| ==> nodes[i].selFlags == old(nodes[i].selFlags)
        decreases |nodes| - cnt
      {
        assert cnt < |nodes| - 1 ==> old(PriorIsNext(nodes, cnt));
        pLoop.pNext := pNext;
        pLoop.selFlags := pLoop.selFlags + {SfCompound};
        pNext := pLoop;
        pLoop := pLoop.pPrior;
        cnt := cnt + 1;
      }
      if !Multi(p.selFlags) && mxSelect > 0 && cnt > mxSelect {
        tooMany := true;
      }
    }
  }

  // ----- what nodes stand for -----

  /** The terms of a chain of rows, which hold no subqueries. */
  ghost function RowTerms(nodes: seq<SelectNode>): (chain: seq<Term>)
    reads nodes
    ensures |chain| == |nodes|
  {
    seq(|nodes|, i requires 0 <= i < |nodes| reads nodes => Term(nodes[i].op, nodes[i].selFlags, nodes[i].source))
  }

  /** Each prior points back, the head has no next, and every node is marked. */
  ghost predicate DoublyLinked(nodes: seq<SelectNode>)
    requires nodes != []
    reads nodes
  {
    && nodes[0].pNext == null
    && (forall i :: 0 < i < |nodes| ==> nodes[i].pNext == nodes[i - 1])
    && (forall i :: 0 <= i < |nodes| ==> SfCompound in nodes[i].selFlags)
  }

  /** The subquery of a node, if it has one, is an intact and doubly linked chain of rows. */
  ghost predicate Intact(n: SelectNode)
    reads n.inner
  {
    n.pFrom != null ==>
      && IsChain(n.inner) && n.inner[0] == n.pFrom && |n.inner| > 1
      && DoublyLinked(n.inner)
  }

  /** What the node's FROM clause and columns yield now. */
  ghost function BodyOf(n: SelectNode): Body
    reads n.inner
  {
    if n.pFrom == null then n.source else Sub(RowTerms(n.inner))
  }

  ghost function TermOf(n: SelectNode): Term
    reads n, n.inner
  {
    Term(n.op, n.selFlags, BodyOf(n))
  }

  /** The nodes of the subqueries below these nodes. */
  ghost function Inners(nodes: seq<SelectNode>): (s: set<SelectNode>)
    ensures forall n, m :: n in nodes && m in n.inner ==> m in s
    ensures forall m :: m in s ==> exists n :: n in nodes && m in n.inner
  {
    if nodes == [] then {} else (set m | m in nodes[0].inner) + Inners(nodes[1..])
  }

  /** The chain of terms that a list of nodes stands for, subqueries followed through the heap. */
  ghost function TermsOf(nodes: seq<SelectNode>): (chain: seq<Term>)
    reads nodes, Inners(nodes)
    ensures |chain| == |nodes|
    ensures forall i :: 0 <= i < |nodes| ==> chain[i] == TermOf(nodes[i])
  {
    if nodes == [] then []
    else
      assert nodes[0] in nodes;
      [TermOf(nodes[0])] + TermsOf(nodes[1..])
  }

  /** Subqueries are intact and lie apart from the chain. */
  ghost predicate Subqueries(nodes: seq<SelectNode>)
    reads nodes, Inners(nodes)
  {
    && (forall n :: n in nodes ==> Intact(n))
    && Apart(nodes, set n | n in nodes)
  }

  /** No subquery below these nodes has a node among `others`. */
  ghost predicate Apart(nodes: seq<SelectNode>, others: set<SelectNode>) {
    forall n, i :: n in nodes && 0 <= i < |n.inner| ==> n.inner[i] !in others
  }

  lemma ApartByInners(nodes: seq<SelectNode>, others: set<SelectNode>)
    requires Inners(nodes) !! others
    ensures Apart(nodes, others)
  {
    forall n, i | n in nodes && 0 <= i < |n.inner|
      ensures n.inner[i] !in others
    {
      assert n.inner[i] in n.inner;
    }
  }

  ghost predicate Chain(nodes: seq<SelectNode>)
    reads nodes, Inners(nodes)
  {
    IsChain(nodes) && Subqueries(nodes)
  }

  /** Nodes without a subquery. */
  ghost predicate Flat(nodes: seq<SelectNode>) {
    forall n :: n in nodes ==> n.pFrom == null && n.inner == []
  }

  lemma FlatTerms(nodes: seq<SelectNode>)
    requires Flat(nodes)
    ensures TermsOf(nodes) == RowTerms(nodes) && Inners(nodes) == {} && Subqueries(nodes)
  {
    assert forall i :: 0 <= i < |nodes| ==> nodes[i] in nodes;
  }

  /** The subquery of a node is as it was. */
  twostate predicate Untouched(n: SelectNode)
    reads n.inner
  {
    forall i :: 0 <= i < |n.inner| ==>
      && n.inner[i].op == old(n.inner[i].op) && n.inner[i].selFlags == old(n.inner[i].selFlags)
      && n.inner[i].pPrior == old(n.inner[i].pPrior) && n.inner[i].pNext == old(n.inner[i].pNext)
  }

  /** A node whose subquery is untouched keeps its body. */
  twostate lemma SameBody(n: SelectNode)
    requires Untouched(n) && old(Intact(n))
    ensures Intact(n) && BodyOf(n) == old(BodyOf(n))
  {
    if n.pFrom != null {
      forall i | 0 <= i < |n.inner| - 1
        ensures PriorIsNext(n.inner, i)
      {
        assert old(PriorIsNext(n.inner, i));
      }
      assert RowTerms(n.inner) == old(RowTerms(n.inner));
    }
  }

  /** Nodes whose subqueries are untouched keep their bodies. */
  twostate lemma SameBodies(nodes: seq<SelectNode>)
    requires old(Subqueries(nodes))
    requires forall n :: n in nodes ==> Untouched(n)
    ensures Subqueries(nodes)
    ensures forall n :: n in nodes ==> BodyOf(n) == old(BodyOf(n))
  {
    forall n | n in nodes
      ensures Intact(n) && BodyOf(n) == old(BodyOf(n))
    {
      SameBody(n);
    }
  }

  /** Nothing of the chain has changed. */
  twostate lemma SameTerms(nodes: seq<SelectNode>)
    requires old(Subqueries(nodes))
    requires forall n :: n in nodes ==> Untouched(n)
    requires forall n :: n in nodes ==> n.op == old(n.op) && n.selFlags == old(n.selFlags)
    ensures Subqueries(nodes) && TermsOf(nodes) == old(TermsOf(nodes))
  {
    SameBodies(nodes);
    assert forall i :: 0 <= i < |nodes| ==> nodes[i] in nodes;
  }

  /** Only the head has lost its multi-row flag. */
  twostate lemma HeadUnmarked(nodes: seq<SelectNode>)
    requires nodes != [] && old(Subqueries(nodes))
    requires forall n :: n in nodes ==> Untouched(n)
    requires forall n :: n in nodes ==> n.op == old(n.op)
    requires nodes[0].selFlags == ClearMulti(old(nodes[0].selFlags))
    requires forall i :: 0 < i < |nodes| ==> nodes[i].selFlags == old(nodes[i].selFlags)
    ensures Subqueries(nodes) && TermsOf(nodes) == Unmark(old(TermsOf(nodes)))
  {
    SameBodies(nodes);
    assert forall i :: 0 <= i < |nodes| ==> nodes[i] in nodes;
  }

  /** Every node of a chain of several has been marked as part of a compound. */
  twostate lemma AllMarked(nodes: seq<SelectNode>)
    requires old(Subqueries(nodes))
    requires forall n :: n in nodes ==> Untouched(n)
    requires forall n :: n in nodes ==> n.op == old(n.op)
    requires forall i :: 0 <= i < |nodes| ==>
      nodes[i].selFlags == if |nodes| > 1 then old(nodes[i].selFlags) + {SfCompound} else old(nodes[i].selFlags)
    ensures Subqueries(nodes) && TermsOf(nodes) == Linked(old(TermsOf(nodes)))
  {
    SameBodies(nodes);
    assert forall i :: 0 <= i < |nodes| ==> nodes[i] in nodes;
  }

  // ----- the actions -----

  /** Make `right` the new head in front of `left`, joined by op. */
  method Join(right: SelectNode, op: Op, left: SelectNode, ghost nodes: seq<SelectNode>)
    requires Chain(nodes) && left == nodes[0] && right !in nodes && right !in Inners(nodes)
    requires Intact(right) && Apart([right], set n | n in [right] + nodes)
    modifies right`op, right`pPrior, left`selFlags
    ensures Chain([right] + nodes)
    ensures TermsOf([right] + nodes) == [Term(op, right.selFlags, old(BodyOf(right)))] + Unmark(old(TermsOf(nodes)))
  {
    hide Intact, BodyOf, TermsOf, RowTerms, Inners, IsChain;
    HeadIsFirst(nodes);
    right.op := op;
    right.pPrior := left;
    left.selFlags := ClearMulti(left.selFlags);
    assert left in nodes && right in [right];
    ApartByInners(nodes, {right});
    HeadUnmarked(nodes);
    SameBody(right);
    StillChain(nodes);
    ChainCons(right, nodes);
    SubqueriesCons(right, nodes);
    ConsTerms(right, nodes);
  }

  /** The head of a chain does not come back in it. */
  lemma HeadIsFirst(nodes: seq<SelectNode>)
    requires IsChain(nodes)
    ensures nodes != [] && forall i :: 0 < i < |nodes| ==> nodes[i] != nodes[0]
  {
    ChainIsAcyclic(nodes);
  }

  twostate lemma StillChain(nodes: seq<SelectNode>)
    requires old(IsChain(nodes)) && forall n :: n in nodes ==> n.pPrior == old(n.pPrior)
    ensures IsChain(nodes)
  {
    forall i | 0 <= i < |nodes| - 1
      ensures PriorIsNext(nodes, i)
    {
      assert old(PriorIsNext(nodes, i));
    }
  }

  lemma SubqueriesCons(n: SelectNode, nodes: seq<SelectNode>)
    requires Subqueries(nodes) && Intact(n)
    requires Apart([n], set k | k in [n] + nodes) && Apart(nodes, {n})
    ensures Subqueries([n] + nodes)
  {
    hide Intact;
    assert n in [n];
    forall k, i | k in [n] + nodes && 0 <= i < |k.inner|
      ensures k.inner[i] !in (set j | j in [n] + nodes)
    {
    }
  }

  lemma ChainCons(n: SelectNode, nodes: seq<SelectNode>)
    requires IsChain(nodes) && n.pPrior == nodes[0]
    ensures IsChain([n] + nodes)
  {
    forall i | 0 <= i < |[n] + nodes| - 1
      ensures PriorIsNext([n] + nodes, i)
    {
      if i > 0 {
        assert PriorIsNext(nodes, i - 1);
      }
    }
  }

  lemma ConsTerms(n: SelectNode, nodes: seq<SelectNode>)
    ensures TermsOf([n] + nodes) == [TermOf(n)] + TermsOf(nodes)
    ensures Inners([n] + nodes) == (set m | m in n.inner) + Inners(nodes)
    ensures forall k :: k in [n] + nodes <==> k == n || k in nodes
  {
    hide BodyOf, Intact;
    assert ([n] + nodes)[1..] == nodes;
  }

  /** values ::= values COMMA LP exprlist RP */
  method ReduceRow(pLeft: SelectNode, row: nat, ghost nodes: seq<SelectNode>) returns (pRight: SelectNode)
    requires IsChain(nodes) && Flat(nodes) && pLeft == nodes[0]
    modifies pLeft`selFlags
    ensures fresh(pRight) && IsChain([pRight] + nodes) && Flat([pRight] + nodes)
    ensures RowTerms([pRight] + nodes) == AddRow(old(RowTerms(nodes)), row)
  {
    pRight := new SelectNode.New(Row(row), null, [], {SfValues, SfMultiValue});
    FlatTerms(nodes);
    Join(pRight, All, pLeft, nodes);
    FlatTerms([pRight] + nodes);
  }

  /** Make a chain of rows the subquery of a new node, doubly linked and without an error. */
  method Wrap(pRhs: SelectNode, mxSelect: int, ghost right: seq<SelectNode>) returns (p: SelectNode, tooMany: bool)
    requires IsChain(right) && pRhs == right[0] && |right| > 1 && Multi(pRhs.selFlags)
    modifies right`pNext, right`selFlags
    ensures !tooMany && fresh(p) && p.pFrom == pRhs && p.inner == right && p.selFlags == {}
    ensures Intact(p) && DoublyLinked(right)
    ensures RowTerms(right) == Linked(old(RowTerms(right)))
  {
    ghost var terms := RowTerms(right);
    tooMany := ParserDoubleLinkSelect(pRhs, mxSelect, right);
    assert RowTerms(right) == Linked(terms);
    p := new SelectNode.New(Row(0), pRhs, right, {});
  }

  /** The node that stands for a right operand: the operand itself, or the node that wraps it. */
  method Operand(pRhs: SelectNode, mxSelect: int, ghost right: seq<SelectNode>) returns (p: SelectNode, tooMany: bool)
    requires IsChain(right) && Flat(right) && pRhs == right[0]
    requires |right| > 1 ==> Multi(pRhs.selFlags)
    modifies right`pNext, right`selFlags
    ensures !tooMany && Intact(p)
    ensures |right| == 1 ==> p == pRhs && p.inner == []
    ensures |right| > 1 ==> fresh(p) && p.pFrom == pRhs && p.inner == right && DoublyLinked(right)
    ensures BodyOf(p) == if |right| > 1 then Sub(Linked(old(RowTerms(right)))) else old(RowTerms(right))[0].body
    ensures p.selFlags == ClearMulti(if |right| > 1 then {} else old(RowTerms(right))[0].flags)
  {
    ghost var terms := RowTerms(right);
    assert pRhs in right;
    assert |right| > 1 ==> PriorIsNext(right, 0);
    p, tooMany := pRhs, false;
    if pRhs.pPrior != null {
      p, tooMany := Wrap(pRhs, mxSelect, right);
    }
    ghost var body := BodyOf(p);
    p.selFlags := ClearMulti(p.selFlags);
  }

  /** selectnowith ::= selectnowith multiselect_op oneselect.  A right operand that is a chain
      becomes the subquery of a new node, doubly linked and without an error. */
  method ReduceArm(pLhs: SelectNode, op: Op, pRhs: SelectNode, mxSelect: int,
                   ghost left: seq<SelectNode>, ghost right: seq<SelectNode>)
      returns (p: SelectNode, tooMany: bool)
    requires Chain(left) && pLhs == left[0] && IsChain(right) && Flat(right) && pRhs == right[0]
    requires forall n :: n in right ==> n !in left && n !in Inners(left)
    requires |right| > 1 ==> Multi(pRhs.selFlags)
    modifies pLhs`selFlags, right`op, right`pPrior, right`pNext, right`selFlags
    ensures !tooMany
    ensures |right| == 1 ==> p == pRhs
    ensures |right| > 1 ==> fresh(p) && p.pFrom == pRhs && p.inner == right && Intact(p)
    ensures Chain([p] + left)
    ensures TermsOf([p] + left) == AddArm(old(TermsOf(left)), op, old(RowTerms(right)))
  {
    hide TermsOf, RowTerms, BodyOf, Inners, IsChain, DoublyLinked;
    p, tooMany := Operand(pRhs, mxSelect, right);
    HeadIsFirst(right);
    assert pRhs in right;
    ApartByInners(left, set n | n in right);
    SameTerms(left);
    StillChain(left);
    Join(p, op, pLhs, left);
    assert p in [p] + left;
  }

  // ----- a whole statement -----

  /** Reduce the rows of a VALUES, left to right. */
  method BuildRowNodes(first: nat, more: seq<nat>) returns (p: SelectNode, ghost nodes: seq<SelectNode>)
    ensures IsChain(nodes) && Flat(nodes) && p == nodes[0] && fresh(nodes)
    ensures RowTerms(nodes) == BuildRows(first, more)
    ensures more == [] ==> p.pNext == null
  {
    hide AddRow;
    p := new SelectNode.New(Row(first), null, [], {SfValues});
    nodes := [p];
    for i := 0 to |more|
      invariant IsChain(nodes) && Flat(nodes) && p == nodes[0] && fresh(nodes)
      invariant RowTerms(nodes) == BuildRows(first, more[..i])
      invariant i == 0 ==> p.pNext == null
    {
      assert more[..i + 1][..i] == more[..i];
      var q := ReduceRow(p, more[i], nodes);
      nodes := [q] + nodes;
      p := q;
    }
    assert more[..|more|] == more;
  }

  method BuildOneNodes(s: OneSelect) returns (p: SelectNode, ghost nodes: seq<SelectNode>)
    ensures IsChain(nodes) && Flat(nodes) && p == nodes[0] && fresh(nodes)
    ensures RowTerms(nodes) == BuildOne(s) && p.selFlags == BuildOne(s)[0].flags
    ensures |nodes| == 1 ==> p.pNext == null
  {
    if s.Select? {
      p := new SelectNode.New(Core(s.id), null, [], DistinctFlag(s.distinct));
      nodes := [p];
    } else {
      p, nodes := BuildRowNodes(s.first, s.more);
    }
  }

  /** Reduce a whole statement bottom up.  The third result is pParse->hasCompound. */
  method BuildNodes(c: Statement, mxSelect: int)
    returns (p: SelectNode, ghost nodes: seq<SelectNode>, hasCompound: bool)
    ensures Chain(nodes) && p == nodes[0] && fresh(nodes) && fresh(Inners(nodes))
    ensures TermsOf(nodes) == Build(c)
    ensures |nodes| == 1 ==> p.pNext == null
    ensures hasCompound == NotOnlyUnionAll(c)
  {
    hide IsChain, AddArm, BuildOne, TermsOf, Intact, BodyOf, RowTerms, Inners, Subqueries;
    if c.One? {
      p, nodes := BuildOneNodes(c.s);
      FlatTerms(nodes);
      hasCompound := false;
    } else {
      var l, lnodes, h := BuildNodes(c.left, mxSelect);
      var r, rnodes := BuildOneNodes(c.right);
      OperandFlag(c.right);
      var tooMany;
      p, tooMany := ReduceArm(l, c.op, r, mxSelect, lnodes, rnodes);
      nodes := [p] + lnodes;
      ConsTerms(p, lnodes);
      hasCompound := h || c.op != All;
    }
  }

  predicate NotOnlyUnionAll(c: Statement) {
    c.Then? && (c.op != All || NotOnlyUnionAll(c.left))
  }

  /** select ::= with selectnowith.  For every statement: the finished chain computes its
      meaning, its terms and those of every subquery are doubly linked, and it is refused
      exactly when it is not a single VALUES and has more terms than the limit allows. */
  method ReduceSelect(c: Statement, mxSelect: int) returns (p: SelectNode, ghost nodes: seq<SelectNode>, tooMany: bool)
    ensures IsChain(nodes) && p == nodes[0] && p.pNext == null
    ensures forall n :: n in nodes ==> Intact(n)
    ensures TermsOf(nodes) == Linked(Build(c)) && |nodes| == Terms(c)
    ensures forall i :: 0 < i < |nodes| ==> nodes[i].pNext == nodes[i - 1]
    ensures tooMany <==> 0 < mxSelect < Terms(c) && c.Then?
  {
    hide TermsOf, BodyOf, Intact, Inners, Linked;
    var h;
    p, nodes, h := BuildNodes(c, mxSelect);
    ghost var terms := TermsOf(nodes);
    label built:
    tooMany := ParserDoubleLinkSelect(p, mxSelect, nodes);
    AllMarked@built(nodes);
    ChainLength(c);
    HeadFlag(c);
  }
}

/** Tables on which the stack grows no faster than the input: every input has a stack that holds it. */
module Depth {
  import opened Wrappers
  import opened Seqs
  import opened Tables
  import opened Machine
  import opened Driver
  import opened History
  import opened Runs
  import opened Theorems
  import opened Refinement

  /** Evidence that symbols which derive nothing cannot pile up: those symbols, and a rank of each
      state that falls along them. */
  datatype DepthCertificate = DepthCertificate(nullable: set<nat>, rank: seq<nat>, top: nat)

  function Rank(D: DepthCertificate, q: nat): nat {
    if q < |D.rank| then D.rank[q] else 0
  }

  /** A rule whose right side may derive nothing has such a left side. */
  predicate NullableClosed(T: Tables, D: DepthCertificate, r: nat) {
    (forall i :: 0 <= i < |Rhs(T, r)| ==> Rhs(T, r)[i].One? && Rhs(T, r)[i].s in D.nullable)
    ==> Lhs(T, r) in D.nullable
  }

  /** The goto over x leads to a state of lower rank. */
  predicate RankFalls(T: Tables, D: DepthCertificate, q: nat, x: nat) {
    var g := GotoEntry(T, q, x);
    g.Some? && g.value <= T.maxShift ==> Rank(D, g.value) < Rank(D, q)
  }

  predicate Bounded(T: Tables, C: Certificate, D: DepthCertificate) {
    && (forall x :: x in D.nullable ==> T.nTerminal <= x)
    && (forall r :: 0 <= r < |T.rules| ==> NullableClosed(T, D, r))
    && (forall q, i: Item :: 0 <= q <= T.maxShift && i in ItemsAt(C, q) && i.dot == 0 && Lhs(T, i.rule) in D.nullable
          ==> RankFalls(T, D, q, Lhs(T, i.rule)))
    && (forall q :: 0 <= q <= T.maxShift ==> Rank(D, q) <= D.top)
  }

  // ----- entries that cover no token -----

  /** The n-th entry covers a token, or is a symbol that derives nothing and leads to lower rank. */
  predicate FallsAt(T: Tables, D: DepthCertificate, stack: seq<Entry>, n: nat)
    requires n < |stack|
  {
    Frontier(stack[n].minor) == [] ==>
      && stack[n].major in D.nullable
      && (stack[n].stateno <= T.maxShift ==> Rank(D, stack[n].stateno) < Rank(D, StateAt(stack, n)))
  }

  predicate Falls(T: Tables, D: DepthCertificate, stack: seq<Entry>) {
    forall n :: 0 <= n < |stack| ==> FallsAt(T, D, stack, n)
  }

  /** Tokens that a stack covers. */
  function Covered(stack: seq<Entry>): nat {
    |FrontierAll(Minors(stack))|
  }

  lemma CoveredPush(stack: seq<Entry>, e: Entry)
    ensures Covered(stack + [e]) == Covered(stack) + |Frontier(e.minor)|
  {
    assert Minors(stack + [e]) == Minors(stack) + [e.minor];
    ForestPush(Minors(stack), e.minor);
  }

  lemma CoveredTake(stack: seq<Entry>, n: nat)
    requires n < |stack|
    ensures Covered(stack[..n + 1]) == Covered(stack[..n]) + |Frontier(stack[n].minor)|
  {
    assert stack[..n + 1] == stack[..n] + [stack[n]];
    CoveredPush(stack[..n], stack[n]);
  }

  /** Among the first n entries, all in states, each covered token pays for one descent. */
  lemma {:induction false} DepthUpTo(T: Tables, C: Certificate, D: DepthCertificate, limit: nat, stack: seq<Entry>,
                                     n: nat)
    requires Inv(T, C, limit, stack) && Bounded(T, C, D) && Falls(T, D, stack)
    requires n <= |stack| && T.IsState(StateAt(stack, n))
    ensures n + Rank(D, StateAt(stack, n)) <= (D.top + 1) * Covered(stack[..n]) + D.top
  {
    hide Inv, NullableClosed, RankFalls, Covered, Frontier;
    if n > 0 {
      EntryBelowIsState(T, C, limit, stack, n - 1);
      DepthUpTo(T, C, D, limit, stack, n - 1);
      CoveredTake(stack, n - 1);
      assert FallsAt(T, D, stack, n - 1);
      Descent(D.top, Covered(stack[..n - 1]), |Frontier(stack[n - 1].minor)|, n - 1,
              Rank(D, StateAt(stack, n - 1)), Rank(D, StateAt(stack, n)));
    }
  }

  lemma Descent(top: nat, c: nat, f: nat, n: nat, above: nat, below: nat)
    requires n + above <= (top + 1) * c + top && below <= top
    requires f == 0 ==> below < above
    ensures n + 1 + below <= (top + 1) * (c + f) + top
  {
    assert (top + 1) * (c + f) == (top + 1) * c + (top + 1) * f;
    if f > 0 {
      assert (top + 1) * f >= top + 1;
    }
  }

  lemma EntryBelowIsState(T: Tables, C: Certificate, limit: nat, stack: seq<Entry>, n: nat)
    requires Inv(T, C, limit, stack) && n < |stack|
    ensures T.IsState(StateAt(stack, n))
  {
    BelowTopAreStates(T, C, stack);
  }

  /** The stack is bounded by the tokens it covers. */
  lemma DepthByTokens(T: Tables, C: Certificate, D: DepthCertificate, limit: nat, stack: seq<Entry>)
    requires Inv(T, C, limit, stack) && Bounded(T, C, D) && Falls(T, D, stack)
    ensures |stack| <= (D.top + 1) * Covered(stack) + D.top + 1
  {
    hide Inv, Covered, Falls, Bounded;
    if stack != [] {
      var n := |stack| - 1;
      EntryBelowIsState(T, C, limit, stack, n);
      DepthUpTo(T, C, D, limit, stack, n);
      CoveredTake(stack, n);
      assert stack[..n + 1] == stack;
      Product(D.top + 1, Covered(stack[..n]), |Frontier(stack[n].minor)|);
    }
  }

  lemma Product(k: nat, c: nat, f: nat)
    ensures k * (c + f) >= k * c
  {
    assert k * (c + f) == k * c + k * f;
  }

  // ----- steps -----

  lemma {:induction false} CoversNothing(ms: seq<Minor>, i: nat)
    requires i < |ms| && FrontierAll(ms) == []
    ensures Frontier(ms[i]) == []
    decreases |ms|
  {
    hide Frontier;
    if i < |ms| - 1 {
      CoversNothing(ms[..|ms| - 1], i);
    }
  }

  lemma {:induction false} ChainIsNullable(T: Tables, C: Certificate, D: DepthCertificate, x: nat, chain: seq<nat>,
                                           s: nat)
    requires Bounded(T, C, D) && UnitChain(T, x, chain, s) && x in D.nullable
    ensures s in D.nullable
    decreases |chain|
  {
    hide RankFalls;
    if chain != [] {
      assert NullableClosed(T, D, chain[0]);
      ChainIsNullable(T, C, D, Lhs(T, chain[0]), chain[1..], s);
    }
  }

  lemma ReadsNullable(T: Tables, C: Certificate, D: DepthCertificate, x: nat, y: Sym)
    requires Bounded(T, C, D) && x in D.nullable && SymOK(T, y) && Reads(T, x, y)
    ensures y.One? && y.s in D.nullable
  {
    hide NullableClosed, RankFalls;
    var chain, s :| StandsFor(T, x, chain, s) && Matches(y, s);
    ChainIsNullable(T, C, D, x, chain, s);
  }

  /** A right side that covers nothing makes the left side a symbol that derives nothing. */
  lemma LeftSideIsNullable(T: Tables, C: Certificate, D: DepthCertificate, stack: seq<Entry>, r: nat)
    requires WellFormed(T, C) && Bounded(T, C, D) && Falls(T, D, stack) && Ready(T, C, stack, r)
    requires FrontierAll(Minors(stack[|stack| - |Rhs(T, r)|..])) == []
    ensures Lhs(T, r) in D.nullable
  {
    hide WellFormed, Bounded, Frontier, FrontierAll, Falls, Spells, Begins;
    var keep := |stack| - |Rhs(T, r)|;
    forall i | 0 <= i < |Rhs(T, r)|
      ensures Rhs(T, r)[i].One? && Rhs(T, r)[i].s in D.nullable
    {
      CoversNothing(Minors(stack[keep..]), i);
      SymbolIsNullable(T, C, D, stack, r, i);
    }
    ClosedAt(T, C, D, r);
  }

  lemma SymbolIsNullable(T: Tables, C: Certificate, D: DepthCertificate, stack: seq<Entry>, r: nat, i: nat)
    requires WellFormed(T, C) && Bounded(T, C, D) && Falls(T, D, stack) && Ready(T, C, stack, r)
    requires i < |Rhs(T, r)| && Frontier(stack[|stack| - |Rhs(T, r)| + i].minor) == []
    ensures Rhs(T, r)[i].One? && Rhs(T, r)[i].s in D.nullable
  {
    hide ItemsOK, ShiftsOK, GotosOK, WeightsOK, Bounded, Frontier, Reads, Begins, SymOf;
    var keep := |stack| - |Rhs(T, r)|;
    assert RuleOK(T, r);
    assert EntrySpells(T, C, stack[keep..][i], Rhs(T, r)[i]);
    assert FallsAt(T, D, stack, keep + i);
    ReadsNullable(T, C, D, stack[keep + i].major, Rhs(T, r)[i]);
  }

  lemma ClosedAt(T: Tables, C: Certificate, D: DepthCertificate, r: nat)
    requires Bounded(T, C, D) && r < |T.rules|
    ensures NullableClosed(T, D, r)
  {
  }

  lemma FallsPush(T: Tables, D: DepthCertificate, stack: seq<Entry>, n: nat, e: Entry)
    requires Falls(T, D, stack) && n <= |stack|
    requires Frontier(e.minor) == [] ==>
      e.major in D.nullable && (e.stateno <= T.maxShift ==> Rank(D, e.stateno) < Rank(D, StateAt(stack, n)))
    ensures Falls(T, D, stack[..n] + [e])
  {
    hide Frontier;
    var s := stack[..n] + [e];
    forall i | 0 <= i < |s|
      ensures FallsAt(T, D, s, i)
    {
      if i < n {
        assert FallsAt(T, D, stack, i);
      }
    }
  }

  lemma ShiftFallsOn(T: Tables, D: DepthCertificate, limit: nat, cfg: Config, a: nat, major: nat, token: Token)
    requires Falls(T, D, cfg.stack) && |cfg.stack| < limit
    ensures var next := ShiftStep(T, limit, cfg, a, major, token);
      Falls(T, D, next.stack) && Covered(next.stack) == Covered(cfg.stack) + 1
  {
    hide Covered;
    var e := Entry(T.Stored(a), major, Leaf(token));
    FallsPush(T, D, cfg.stack, |cfg.stack|, e);
    assert cfg.stack[..|cfg.stack|] == cfg.stack;
    CoveredPush(cfg.stack, e);
  }

  lemma GotoFalls(T: Tables, C: Certificate, D: DepthCertificate, q: nat, r: nat)
    requires Bounded(T, C, D) && Begins(T, C, q, r) && Lhs(T, r) in D.nullable
    ensures RankFalls(T, D, q, Lhs(T, r))
  {
    hide RankFalls, NullableClosed;
    assert Item(r, 0).dot == 0;
  }

  lemma CoveredReplace(below: seq<Entry>, rhs: seq<Entry>, r: nat, e: Entry)
    requires e.minor == Built(r, Minors(rhs))
    ensures Covered(below + [e]) == Covered(below + rhs)
  {
    CoveredPush(below, e);
    assert Minors(below + rhs) == Minors(below) + Minors(rhs);
    FrontierConcat(Minors(below), Minors(rhs));
  }

  lemma LeftSideFalls(T: Tables, C: Certificate, D: DepthCertificate, stack: seq<Entry>, r: nat)
    requires WellFormed(T, C) && Bounded(T, C, D) && Falls(T, D, stack) && Ready(T, C, stack, r)
    requires |Rhs(T, r)| <= |stack| && Goto(T, stack, r).Some?
    ensures var e := LhsEntry(T, stack, r);
      Frontier(e.minor) == [] ==>
        && e.major in D.nullable
        && (e.stateno <= T.maxShift ==> Rank(D, e.stateno) < Rank(D, StateAt(stack, |stack| - |Rhs(T, r)|)))
  {
    hide ItemsOK, ShiftsOK, GotosOK, WeightsOK, Bounded, Spells, FrontierAll, Falls;
    var keep := |stack| - |Rhs(T, r)|;
    var e := LhsEntry(T, stack, r);
    assert Frontier(e.minor) == FrontierAll(Minors(stack[keep..]));
    if Frontier(e.minor) == [] {
      LeftSideIsNullable(T, C, D, stack, r);
      GotoFalls(T, C, D, StateAt(stack, keep), r);
    }
  }

  lemma PushFallsOn(T: Tables, C: Certificate, D: DepthCertificate, stack: seq<Entry>, r: nat)
    requires WellFormed(T, C) && Bounded(T, C, D) && Falls(T, D, stack) && Ready(T, C, stack, r)
    requires |Rhs(T, r)| <= |stack| && Goto(T, stack, r).Some?
    ensures var next := stack[..|stack| - |Rhs(T, r)|] + [LhsEntry(T, stack, r)];
      Falls(T, D, next) && Covered(next) == Covered(stack)
  {
    hide WellFormed, Bounded, Ready, Falls, Covered, Frontier, Goto;
    var keep := |stack| - |Rhs(T, r)|;
    var e := LhsEntry(T, stack, r);
    LeftSideFalls(T, C, D, stack, r);
    FallsPush(T, D, stack, keep, e);
    assert stack == stack[..keep] + stack[keep..];
    CoveredReplace(stack[..keep], stack[keep..], r, e);
  }

  lemma ReduceFallsOn(T: Tables, C: Certificate, D: DepthCertificate, limit: nat, cfg: Config, r: nat)
    requires Inv(T, C, limit, cfg.stack) && Bounded(T, C, D) && Falls(T, D, cfg.stack) && Ready(T, C, cfg.stack, r)
    requires |cfg.stack| < limit
    requires |Rhs(T, r)| <= |cfg.stack| && Goto(T, cfg.stack, r).Some?
    ensures var next := ReduceStep(T, limit, cfg, r);
      next.stack != [] && Goto(T, cfg.stack, r).value < T.MinReduce() ==>
        Falls(T, D, next.stack) && Covered(next.stack) == Covered(cfg.stack)
  {
    hide WellFormed, Linked, Bounded, Falls, Ready, Covered, LhsEntry;
    PushFallsOn(T, C, D, cfg.stack, r);
  }

  // ----- calls and runs -----

  /** On a stack with room for the tokens covered, a call does not overflow and covers at most
      its own token more. */
  lemma {:induction false} CallFits(T: Tables, C: Certificate, D: DepthCertificate, limit: nat, cfg: Config,
                                    major: nat, token: Token, k: nat)
    requires Inv(T, C, limit, cfg.stack) && Bounded(T, C, D) && Falls(T, D, cfg.stack) && major < T.nTerminal
    requires Covered(cfg.stack) <= k && (D.top + 1) * k + D.top + 1 < limit
    ensures var next := Feed(T, C, limit, cfg, major, token);
      && Overflows(next.log) == Overflows(cfg.log)
      && Falls(T, D, next.stack) && Covered(next.stack) <= k + 1
    decreases Room(C, limit, cfg.stack)
  {
    hide Inv, Room, Ready, Edge, ReduceStep, ShiftStep, ShiftAction, Goto, Overflows, Falls, Covered, Bounded;
    FeedUnfolds(T, C, limit, cfg, major, token);
    StackFits(T, C, D, limit, cfg.stack, k);
    NothingCovered(T, D);
    var a := ShiftAction(T, TopCode(cfg.stack), major);
    if a < T.MinReduce() {
      ShiftOverflows(T, limit, cfg, a, major, token);
      ShiftFallsOn(T, D, limit, cfg, a, major, token);
    } else if a < T.ErrorAction() {
      var r := a - T.MinReduce();
      var next := ReduceStep(T, limit, cfg, r);
      ReduceOverflows(T, limit, cfg, r);
      ReduceFallsOn(T, C, D, limit, cfg, r);
      if next.stack == [] {
        OverflowsPush(next.log, Discarded(major, token));
      } else {
        AcceptEmpties(T, limit, cfg, r);
        FeedUnfolds(T, C, limit, next, major, token);
        CallFits(T, C, D, limit, next, major, token, k);
      }
    } else {
      OverflowsPush(cfg.log, Rejected(major, token));
    }
  }

  lemma NothingCovered(T: Tables, D: DepthCertificate)
    ensures Falls(T, D, []) && Covered([]) == 0
  {
  }

  lemma StackFits(T: Tables, C: Certificate, D: DepthCertificate, limit: nat, stack: seq<Entry>, k: nat)
    requires Inv(T, C, limit, stack) && Bounded(T, C, D) && Falls(T, D, stack)
    requires Covered(stack) <= k && (D.top + 1) * k + D.top + 1 < limit
    ensures |stack| < limit
  {
    hide Inv, Bounded, Falls, Covered;
    DepthByTokens(T, C, D, limit, stack);
    Product(D.top + 1, Covered(stack), k - Covered(stack));
  }

  /** Entries enough for an input of n tokens. */
  function Enough(D: DepthCertificate, n: nat): nat {
    (D.top + 1) * n + D.top + 2
  }

  lemma {:induction false} RunFits(T: Tables, C: Certificate, D: DepthCertificate, limit: nat, tokens: Input)
    requires WellFormed(T, C) && Bounded(T, C, D) && 1 <= limit && Tokens(T, tokens)
    requires Enough(D, |tokens|) <= limit
    ensures var cfg := FreshRun(T, C, limit, tokens);
      Overflows(cfg.log) == 0 && Falls(T, D, cfg.stack) && Covered(cfg.stack) <= |tokens|
    decreases |tokens|
  {
    hide WellFormed, Inv, Feed, Overflows, Falls, Covered, Bounded;
    InitialInv(T, C, limit);
    NothingCovered(T, D);
    if tokens == [] {
      NoOverflows();
    } else {
      var front, last := tokens[..|tokens| - 1], tokens[|tokens| - 1];
      assert (D.top + 1) * |tokens| == (D.top + 1) * |front| + D.top + 1;
      RunFits(T, C, D, limit, front);
      CallFits(T, C, D, limit, FreshRun(T, C, limit, front), last.0, last.1, |front|);
    }
  }

  lemma NoOverflows()
    ensures Overflows([]) == 0
  {
  }

  /** On such tables every input has a depth from which on no stack overflows on it, and all of
      them end alike. */
  lemma EveryInputFits(T: Tables, C: Certificate, D: DepthCertificate, limit: nat, tokens: Input)
    requires WellFormed(T, C) && Bounded(T, C, D) && Tokens(T, tokens) && Enough(D, |tokens|) <= limit
    ensures Overflows(FreshRun(T, C, limit, tokens).log) == 0
    ensures FreshRun(T, C, limit, tokens) == FreshRun(T, C, Enough(D, |tokens|), tokens)
  {
    hide WellFormed, Bounded, Overflows, FreshRun;
    var least := Enough(D, |tokens|);
    RunFits(T, C, D, limit, tokens);
    RunFits(T, C, D, least, tokens);
    DeeperRunAgrees(T, C, least, limit, tokens);
  }
}

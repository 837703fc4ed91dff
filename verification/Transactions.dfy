/** A small parser in the generator's own format: the statement-list rules of the grammar down
    to `BEGIN DEFERRED TRANSACTION name`.  It has empty rules, left recursion, keyword
    fallback, a terminal class, shift-reduce actions, default reductions, overlapping table
    rows and one optimized-out unit rule, and it is well formed.
 */
module Transactions {
  import opened Wrappers
  import opened Tables
  import opened Machine
  import opened Driver
  import opened Theorems
  import opened Refinement
  import opened Depth

  // Terminals:    0 $, 1 SEMI, 2 EXPLAIN, 3 BEGIN, 4 TRANSACTION, 5 DEFERRED, 6 ID,
  //               7 INDEXED, 8 ANY
  // Nonterminals: 9 input, 10 cmdlist, 11 ecmd, 12 explain, 13 cmdx, 14 cmd,
  //               15 transtype, 16 trans_opt, 17 nm

  const RULES: seq<Rule> := [
    Rule(12, [One(2)], false),  // 0: explain ::= EXPLAIN
    Rule(13, [One(14)], false),  // 1: cmdx ::= cmd
    Rule(14, [One(3), One(15), One(16)], false),  // 2: cmd ::= BEGIN transtype trans_opt
    Rule(15, [], false),  // 3: transtype ::=
    Rule(15, [One(5)], false),  // 4: transtype ::= DEFERRED
    Rule(9, [One(10)], false),  // 5: input ::= cmdlist
    Rule(10, [One(10), One(11)], false),  // 6: cmdlist ::= cmdlist ecmd
    Rule(10, [One(11)], true),  // 7: cmdlist ::= ecmd
    Rule(11, [One(1)], false),  // 8: ecmd ::= SEMI
    Rule(11, [One(12), One(13), One(1)], false),  // 9: ecmd ::= explain cmdx SEMI
    Rule(12, [], false),  // 10: explain ::=
    Rule(16, [], false),  // 11: trans_opt ::=
    Rule(16, [One(4)], false),  // 12: trans_opt ::= TRANSACTION
    Rule(16, [One(4), One(17)], false),  // 13: trans_opt ::= TRANSACTION nm
    Rule(17, [AnyOf([6, 7])], false)  // 14: nm ::= ID|INDEXED
  ]

  const TABLES: Tables := Tables(
    [48, 1, 1, 2, 37, 25, 17, 25, 17, 23, 2, 6, 18, 31, 31, 3, 21, 4, 5, 19, 30, 26],
    [9, 10, 11, 12, 0, 1, 2, 1, 2, 11, 12, 13, 14, 6, 7, 3, 5, 15, 4, 16, 17, 1],
    [6, 4, 12, 11, 14, 7, 20],
    [-9, -2, -2, 2, 3, 3], -10,
    [42, 42, 47, 35, 43, 44, 47],
    [0, 0, 6, 6, 0, 6],
    RULES, 9, 18, 8, 9, 6, 17)

  const CERTIFICATE: Certificate := Certificate(
    [ {Item(0, 0), Item(5, 0), Item(6, 0), Item(7, 0), Item(8, 0), Item(9, 0), Item(10, 0)},
      {Item(0, 0), Item(5, 1), Item(6, 1), Item(8, 0), Item(9, 0), Item(10, 0)},
      {Item(1, 0), Item(2, 0), Item(9, 1)},
      {Item(2, 1), Item(3, 0), Item(4, 0)},
      {Item(2, 2), Item(11, 0), Item(12, 0), Item(13, 0)},
      {Item(12, 1), Item(13, 1), Item(14, 0)},
      {Item(9, 2)} ],
    [ AnyOf([]), One(10), One(12), One(3), One(15), One(4), One(13) ],
    [-10, -10, -10, -10, -10, -10, -10, -10, -10, -7, -8, -9, 1, -6, -7, 1, 1, -9],
    10, 1)

  lemma LayoutHolds()
    ensures Layout(TABLES)
  {
    hide RuleOK, FallbackOK, NoGotos;
    forall r | 0 <= r < |TABLES.rules|
      ensures RuleOK(TABLES, r)
    {
      RuleHolds(r);
    }
    forall t | 0 <= t < TABLES.nTerminal
      ensures FallbackOK(TABLES, t)
    {
      FallbackHolds(t);
    }
  }

  lemma FallbackHolds(t: nat)
    requires t < TABLES.nTerminal
    ensures FallbackOK(TABLES, t)
  {
  }

  lemma RuleHolds(r: nat)
    requires r < |TABLES.rules|
    ensures RuleOK(TABLES, r)
  {
  }

  lemma GainHolds(r: nat)
    requires r < |TABLES.rules|
    ensures RuleGains(TABLES, CERTIFICATE, r)
  {
    hide RhsWeight;
    var ys := Rhs(TABLES, r);
    RhsWeights(CERTIFICATE, if |ys| > 0 then ys[0] else One(0), if |ys| > 1 then ys[1] else One(0),
               if |ys| > 2 then ys[2] else One(0));
  }

  lemma RhsWeights(C: Certificate, a: Sym, b: Sym, c: Sym)
    ensures RhsWeight(C, []) == 0
    ensures RhsWeight(C, [a]) == SymWeight(C, a)
    ensures RhsWeight(C, [a, b]) == SymWeight(C, a) + SymWeight(C, b)
    ensures RhsWeight(C, [a, b, c]) == SymWeight(C, a) + SymWeight(C, b) + SymWeight(C, c)
  {
    assert [a][..0] == [] && [a, b][..1] == [a] && [a, b, c][..2] == [a, b];
  }

  lemma WeightsHold()
    ensures WeightsOK(TABLES, CERTIFICATE)
  {
    hide RuleGains;
    forall r | 0 <= r < |TABLES.rules|
      ensures RuleGains(TABLES, CERTIFICATE, r)
    {
      GainHolds(r);
    }
  }

  lemma ItemsHold()
    ensures ItemsOK(TABLES, CERTIFICATE)
  {
    hide ItemsAt;
    forall i: Item | i in ItemsAt(CERTIFICATE, 0)
      ensures i.dot == 0
    {
      StartItem(i);
    }
    forall q, i: Item | 0 <= q <= TABLES.maxShift && i in ItemsAt(CERTIFICATE, q)
      ensures i.rule < |TABLES.rules|
    {
      ItemRule(q, i);
    }
  }

  lemma StartItem(i: Item)
    requires i in ItemsAt(CERTIFICATE, 0)
    ensures i.dot == 0
  {
  }

  lemma ItemRule(q: nat, i: Item)
    requires q <= TABLES.maxShift && i in ItemsAt(CERTIFICATE, q)
    ensures i.rule < |TABLES.rules|
  {
  }

  // ----- the shift rows and defaults, state by state -----

  ghost predicate RowHolds(q: nat) {
    && (forall x :: 0 <= x < TABLES.nTerminal && ShiftEntry(TABLES, q, x).Some? ==> CellHolds(q, x))
    && DefaultOK(TABLES, CERTIFICATE, q, Default(TABLES, q))
  }

  predicate CellHolds(q: nat, x: nat)
    requires ShiftEntry(TABLES, q, x).Some?
  {
    ShiftCellOK(TABLES, CERTIFICATE, q, x, ShiftEntry(TABLES, q, x).value)
  }

  lemma Cells0()
    ensures ShiftCellOK(TABLES, CERTIFICATE, 0, 1, 25) && ShiftCellOK(TABLES, CERTIFICATE, 0, 2, 17)
  {
  }

  lemma Decode0(x: nat)
    requires x < TABLES.nTerminal
    ensures ShiftEntry(TABLES, 0, x) == if x == 1 then Some(25) else if x == 2 then Some(17) else None
  {
  }

  lemma Row0()
    ensures RowHolds(0)
  {
    hide ShiftCellOK, ShiftEntry;
    Cells0();
    forall x | 0 <= x < TABLES.nTerminal && ShiftEntry(TABLES, 0, x).Some?
      ensures CellHolds(0, x)
    {
      Decode0(x);
    }
  }

  lemma Cells1()
    ensures ShiftCellOK(TABLES, CERTIFICATE, 1, 0, 37) && ShiftCellOK(TABLES, CERTIFICATE, 1, 1, 25)
    ensures ShiftCellOK(TABLES, CERTIFICATE, 1, 2, 17)
  {
  }

  lemma Decode1(x: nat)
    requires x < TABLES.nTerminal
    ensures ShiftEntry(TABLES, 1, x)
         == if x == 0 then Some(37) else if x == 1 then Some(25) else if x == 2 then Some(17) else None
  {
  }

  lemma Row1()
    ensures RowHolds(1)
  {
    hide ShiftCellOK, ShiftEntry;
    Cells1();
    forall x | 0 <= x < TABLES.nTerminal && ShiftEntry(TABLES, 1, x).Some?
      ensures CellHolds(1, x)
    {
      Decode1(x);
    }
  }

  lemma Cells2()
    ensures ShiftCellOK(TABLES, CERTIFICATE, 2, 3, 3)
  {
  }

  lemma Decode2(x: nat)
    requires x < TABLES.nTerminal
    ensures ShiftEntry(TABLES, 2, x) == if x == 3 then Some(3) else None
  {
  }

  lemma Row2()
    ensures RowHolds(2)
  {
    hide ShiftCellOK, ShiftEntry;
    Cells2();
    forall x | 0 <= x < TABLES.nTerminal && ShiftEntry(TABLES, 2, x).Some?
      ensures CellHolds(2, x)
    {
      Decode2(x);
    }
  }

  lemma Cells3()
    ensures ShiftCellOK(TABLES, CERTIFICATE, 3, 5, 21)
  {
  }

  lemma Decode3(x: nat)
    requires x < TABLES.nTerminal
    ensures ShiftEntry(TABLES, 3, x) == if x == 5 then Some(21) else None
  {
  }

  lemma Row3()
    ensures RowHolds(3)
  {
    hide ShiftCellOK, ShiftEntry;
    Cells3();
    forall x | 0 <= x < TABLES.nTerminal && ShiftEntry(TABLES, 3, x).Some?
      ensures CellHolds(3, x)
    {
      Decode3(x);
    }
  }

  lemma Cells4()
    ensures ShiftCellOK(TABLES, CERTIFICATE, 4, 4, 5)
  {
  }

  lemma Decode4(x: nat)
    requires x < TABLES.nTerminal
    ensures ShiftEntry(TABLES, 4, x) == if x == 4 then Some(5) else None
  {
  }

  lemma Row4()
    ensures RowHolds(4)
  {
    hide ShiftCellOK, ShiftEntry;
    Cells4();
    forall x | 0 <= x < TABLES.nTerminal && ShiftEntry(TABLES, 4, x).Some?
      ensures CellHolds(4, x)
    {
      Decode4(x);
    }
  }

  lemma Cells5()
    ensures ShiftCellOK(TABLES, CERTIFICATE, 5, 6, 31) && ShiftCellOK(TABLES, CERTIFICATE, 5, 7, 31)
  {
  }

  lemma Decode5(x: nat)
    requires x < TABLES.nTerminal
    ensures ShiftEntry(TABLES, 5, x) == if x == 6 then Some(31) else if x == 7 then Some(31) else None
  {
  }

  lemma Row5()
    ensures RowHolds(5)
  {
    hide ShiftCellOK, ShiftEntry;
    Cells5();
    forall x | 0 <= x < TABLES.nTerminal && ShiftEntry(TABLES, 5, x).Some?
      ensures CellHolds(5, x)
    {
      Decode5(x);
    }
  }

  lemma Cells6()
    ensures ShiftCellOK(TABLES, CERTIFICATE, 6, 1, 26)
  {
  }

  lemma Decode6(x: nat)
    requires x < TABLES.nTerminal
    ensures ShiftEntry(TABLES, 6, x) == if x == 1 then Some(26) else None
  {
  }

  lemma Row6()
    ensures RowHolds(6)
  {
    hide ShiftCellOK, ShiftEntry;
    Cells6();
    forall x | 0 <= x < TABLES.nTerminal && ShiftEntry(TABLES, 6, x).Some?
      ensures CellHolds(6, x)
    {
      Decode6(x);
    }
  }

  lemma ShiftsHold()
    ensures ShiftsOK(TABLES, CERTIFICATE)
  {
    hide ShiftCellOK, DefaultOK, ShiftEntry;
    Row0();
    Row1();
    Row2();
    Row3();
    Row4();
    Row5();
    Row6();
    forall q, x | 0 <= q <= TABLES.maxShift && 0 <= x < TABLES.nTerminal && ShiftEntry(TABLES, q, x).Some?
      ensures ShiftCellOK(TABLES, CERTIFICATE, q, x, ShiftEntry(TABLES, q, x).value)
    {
      assert RowHolds(q);
      assert CellHolds(q, x);
    }
    forall q | 0 <= q <= TABLES.maxShift
      ensures DefaultOK(TABLES, CERTIFICATE, q, Default(TABLES, q))
    {
      assert RowHolds(q);
    }
  }

  // ----- the gotos, state by state -----

  lemma GotoByMove(q: nat, x: nat, a: nat, chain: seq<nat>, s: nat)
    requires GotoEntry(TABLES, q, x) == Some(a) && a < TABLES.MinReduce()
    requires StandsFor(TABLES, x, chain, s) && MoveOK(TABLES, CERTIFICATE, q, a, s)
    ensures GotoCellOK(TABLES, CERTIFICATE, q, x)
  {
  }

  lemma Move0to1()
    ensures MoveOK(TABLES, CERTIFICATE, 0, 1, 10)
  {
  }

  lemma Move0to2()
    ensures MoveOK(TABLES, CERTIFICATE, 0, 2, 12)
  {
  }

  lemma Goto0by9()
    ensures GotoCellOK(TABLES, CERTIFICATE, 0, 9)
  {
  }

  lemma Goto0by10()
    ensures GotoCellOK(TABLES, CERTIFICATE, 0, 10)
  {
    hide MoveOK;
    Move0to1();
    GotoByMove(0, 10, 1, [], 10);
  }

  lemma Goto0by11()
    ensures GotoCellOK(TABLES, CERTIFICATE, 0, 11)
  {
    hide MoveOK;
    Move0to1();
    GotoByMove(0, 11, 1, [7], 10);
  }

  lemma Goto0by12()
    ensures GotoCellOK(TABLES, CERTIFICATE, 0, 12)
  {
    hide MoveOK;
    Move0to2();
    GotoByMove(0, 12, 2, [], 12);
  }

  lemma Gotos0(i: Item)
    requires i in ItemsAt(CERTIFICATE, 0) && i.dot == 0
    ensures GotoCellOK(TABLES, CERTIFICATE, 0, Lhs(TABLES, i.rule))
  {
    hide GotoCellOK;
    Goto0by9();
    Goto0by10();
    Goto0by11();
    Goto0by12();
  }

  lemma Move1to23()
    ensures MoveOK(TABLES, CERTIFICATE, 1, 23, 11)
  {
  }

  lemma Move1to2()
    ensures MoveOK(TABLES, CERTIFICATE, 1, 2, 12)
  {
  }

  lemma Goto1by11()
    ensures GotoCellOK(TABLES, CERTIFICATE, 1, 11)
  {
    hide MoveOK;
    Move1to23();
    GotoByMove(1, 11, 23, [], 11);
  }

  lemma Goto1by12()
    ensures GotoCellOK(TABLES, CERTIFICATE, 1, 12)
  {
    hide MoveOK;
    Move1to2();
    GotoByMove(1, 12, 2, [], 12);
  }

  lemma Gotos1(i: Item)
    requires i in ItemsAt(CERTIFICATE, 1) && i.dot == 0
    ensures GotoCellOK(TABLES, CERTIFICATE, 1, Lhs(TABLES, i.rule))
  {
    hide GotoCellOK;
    Goto1by11();
    Goto1by12();
  }

  lemma Move2to6()
    ensures MoveOK(TABLES, CERTIFICATE, 2, 6, 13)
  {
  }

  lemma Move2to18()
    ensures MoveOK(TABLES, CERTIFICATE, 2, 18, 14)
  {
  }

  lemma Goto2by13()
    ensures GotoCellOK(TABLES, CERTIFICATE, 2, 13)
  {
    hide MoveOK;
    Move2to6();
    GotoByMove(2, 13, 6, [], 13);
  }

  lemma Goto2by14()
    ensures GotoCellOK(TABLES, CERTIFICATE, 2, 14)
  {
    hide MoveOK;
    Move2to18();
    GotoByMove(2, 14, 18, [], 14);
  }

  lemma Gotos2(i: Item)
    requires i in ItemsAt(CERTIFICATE, 2) && i.dot == 0
    ensures GotoCellOK(TABLES, CERTIFICATE, 2, Lhs(TABLES, i.rule))
  {
    hide GotoCellOK;
    Goto2by13();
    Goto2by14();
  }

  lemma Move3to4()
    ensures MoveOK(TABLES, CERTIFICATE, 3, 4, 15)
  {
  }

  lemma Goto3by15()
    ensures GotoCellOK(TABLES, CERTIFICATE, 3, 15)
  {
    hide MoveOK;
    Move3to4();
    GotoByMove(3, 15, 4, [], 15);
  }

  lemma Gotos3(i: Item)
    requires i in ItemsAt(CERTIFICATE, 3) && i.dot == 0
    ensures GotoCellOK(TABLES, CERTIFICATE, 3, Lhs(TABLES, i.rule))
  {
    hide GotoCellOK;
    Goto3by15();
  }

  lemma Move4to19()
    ensures MoveOK(TABLES, CERTIFICATE, 4, 19, 16)
  {
  }

  lemma Goto4by16()
    ensures GotoCellOK(TABLES, CERTIFICATE, 4, 16)
  {
    hide MoveOK;
    Move4to19();
    GotoByMove(4, 16, 19, [], 16);
  }

  lemma Gotos4(i: Item)
    requires i in ItemsAt(CERTIFICATE, 4) && i.dot == 0
    ensures GotoCellOK(TABLES, CERTIFICATE, 4, Lhs(TABLES, i.rule))
  {
    hide GotoCellOK;
    Goto4by16();
  }

  lemma Move5to30()
    ensures MoveOK(TABLES, CERTIFICATE, 5, 30, 17)
  {
  }

  lemma Goto5by17()
    ensures GotoCellOK(TABLES, CERTIFICATE, 5, 17)
  {
    hide MoveOK;
    Move5to30();
    GotoByMove(5, 17, 30, [], 17);
  }

  lemma Gotos5(i: Item)
    requires i in ItemsAt(CERTIFICATE, 5) && i.dot == 0
    ensures GotoCellOK(TABLES, CERTIFICATE, 5, Lhs(TABLES, i.rule))
  {
    hide GotoCellOK;
    Goto5by17();
  }

  lemma GotosHold()
    ensures GotosOK(TABLES, CERTIFICATE)
  {
    hide GotoCellOK;
    forall q, i: Item | 0 <= q <= TABLES.maxShift && i in ItemsAt(CERTIFICATE, q) && i.dot == 0
      ensures GotoCellOK(TABLES, CERTIFICATE, q, Lhs(TABLES, i.rule))
    {
      match q
      case 0 => Gotos0(i);
      case 1 => Gotos1(i);
      case 2 => Gotos2(i);
      case 3 => Gotos3(i);
      case 4 => Gotos4(i);
      case 5 => Gotos5(i);
      case _ =>
    }
  }

  /** The tables and the certificate meet every condition, so every result about well-formed
      tables applies to them. */
  lemma TransactionsAreWellFormed()
    ensures WellFormed(TABLES, CERTIFICATE)
  {
    hide Layout, ItemsOK, ShiftsOK, GotosOK, WeightsOK;
    LayoutHolds();
    ItemsHold();
    ShiftsHold();
    GotosHold();
    WeightsHold();
  }

  /** No cell shift-reduces `input ::= cmdlist`. */
  lemma TransactionsAreQuiet()
    ensures Quiet(TABLES)
  {
    hide Rhs;
    assert forall i :: 0 <= i < |TABLES.action| ==> TABLES.action[i] != 22;
  }

  /** So on these tables the driver refines the plain automaton on every input. */
  lemma TransactionsRefinePlain(limit: nat, tokens: Input)
    requires 1 <= limit && Tokens(TABLES, tokens)
    ensures WellFormed(TABLES, CERTIFICATE)
    ensures Settle(TABLES, CERTIFICATE, limit, FreshRun(TABLES, CERTIFICATE, limit, tokens))
         == PlainRun(TABLES, CERTIFICATE, limit, tokens)
  {
    hide WellFormed, Quiet, Tokens;
    TransactionsAreWellFormed();
    TransactionsAreQuiet();
    RunRefinesPlain(TABLES, CERTIFICATE, limit, tokens);
  }

  /** `explain`, `transtype` and `trans_opt` may derive nothing; what follows them does not. */
  const DEPTH: DepthCertificate := DepthCertificate({12, 15, 16}, [1, 1, 0, 1, 0, 0, 0], 1)

  lemma TransactionsAreBounded()
    ensures Bounded(TABLES, CERTIFICATE, DEPTH)
  {
    hide GotoEntry, NullableClosed, RankFalls;
    forall q, i: Item | 0 <= q <= TABLES.maxShift && i in ItemsAt(CERTIFICATE, q) && i.dot == 0
                        && Lhs(TABLES, i.rule) in DEPTH.nullable
      ensures RankFalls(TABLES, DEPTH, q, Lhs(TABLES, i.rule))
    {
      NullableStarts(q, i);
      NullableGotos();
    }
    forall r | 0 <= r < |TABLES.rules|
      ensures NullableClosed(TABLES, DEPTH, r)
    {
      NullableRules(r);
    }
  }

  lemma NullableStarts(q: nat, i: Item)
    requires q <= TABLES.maxShift && i in ItemsAt(CERTIFICATE, q) && i.dot == 0
    requires Lhs(TABLES, i.rule) in DEPTH.nullable
    ensures (q, Lhs(TABLES, i.rule)) in {(0, 12), (1, 12), (3, 15), (4, 16)}
  {
  }

  lemma NullableGotos()
    ensures RankFalls(TABLES, DEPTH, 0, 12) && RankFalls(TABLES, DEPTH, 1, 12)
    ensures RankFalls(TABLES, DEPTH, 3, 15) && RankFalls(TABLES, DEPTH, 4, 16)
  {
  }

  lemma NullableRules(r: nat)
    requires r < |TABLES.rules|
    ensures NullableClosed(TABLES, DEPTH, r)
  {
    var ys := Rhs(TABLES, r);
    assert |ys| > 0 ==> ys[0] == TABLES.rules[r].rhs[0];
    assert |ys| > 1 ==> ys[1] == TABLES.rules[r].rhs[1];
  }

  // ----- an accepting run -----

  const LIMIT := 99

  lemma FirstCall(t: Token)
    requires Inv(TABLES, CERTIFICATE, LIMIT, [])
    ensures var e := Entry(40, 1, Leaf(t));
      Feed(TABLES, CERTIFICATE, LIMIT, INITIAL, 1, t) == Config([e], [Shifted(e)])
  {
    hide Inv, WellFormed;
    FeedUnfolds(TABLES, CERTIFICATE, LIMIT, INITIAL, 1, t);
    Decode0(1);
    assert ShiftAction(TABLES, 0, 1) == 25;
  }

  /** The rows behind the reductions by rules 8 and 5. */
  lemma GotoLookups()
    ensures Rhs(TABLES, 8) == [One(1)] && Lhs(TABLES, 8) == 11 && GotoEntry(TABLES, 0, 11) == Some(1)
    ensures Rhs(TABLES, 5) == [One(10)] && Lhs(TABLES, 5) == 9 && GotoEntry(TABLES, 0, 9) == Some(48)
    ensures TABLES.Stored(1) == 1 && TABLES.MinReduce() == 32
  {
  }

  lemma ReduceEcmd(t: Token)
    ensures var e := Entry(40, 1, Leaf(t));
      var f := Entry(1, 11, Built(8, [Leaf(t)]));
      && Goto(TABLES, [e], 8) == Some(1)
      && ReduceStep(TABLES, LIMIT, Config([e], [Shifted(e)]), 8) == Config([f], [Shifted(e), Reduced(8, [e], f)])
  {
    hide Rhs, Lhs, GotoEntry;
    var e := Entry(40, 1, Leaf(t));
    GotoLookups();
    assert [e][0..] == [e] && [e][..0] == [] && Minors([e]) == [Leaf(t)];
  }

  lemma ReduceInput(f: Entry, log: seq<Event>)
    ensures Goto(TABLES, [f], 5) == Some(48)
    ensures ReduceStep(TABLES, LIMIT, Config([f], log), 5) == Config([], log + [Accepted(5, [f])])
  {
    hide Rhs, Lhs, GotoEntry;
    GotoLookups();
    assert [f][0..] == [f] && [f][..0] == [];
  }

  lemma Lookups()
    ensures ShiftAction(TABLES, 40, 0) == 40 && ShiftAction(TABLES, 1, 0) == 37
    ensures TABLES.MinReduce() == 32 && TABLES.ErrorAction() == 47
  {
    hide ShiftEntry;
    Decode1(0);
  }

  lemma SecondCall(t: Token, u: Token)
    requires Inv(TABLES, CERTIFICATE, LIMIT, [Entry(40, 1, Leaf(t))])
    ensures var e := Entry(40, 1, Leaf(t));
      var f := Entry(1, 11, Built(8, [Leaf(t)]));
      Feed(TABLES, CERTIFICATE, LIMIT, Config([e], [Shifted(e)]), 0, u)
      == Config([], [Shifted(e), Reduced(8, [e], f), Accepted(5, [f]), Discarded(0, u)])
  {
    hide Inv, ShiftAction, ReduceStep, Goto, Room;
    var e := Entry(40, 1, Leaf(t));
    var f := Entry(1, 11, Built(8, [Leaf(t)]));
    Lookups();
    ReduceEcmd(t);
    ReduceInput(f, [Shifted(e), Reduced(8, [e], f)]);
    FeedUnfolds(TABLES, CERTIFICATE, LIMIT, Config([e], [Shifted(e)]), 0, u);
    FeedUnfolds(TABLES, CERTIFICATE, LIMIT, Config([f], [Shifted(e), Reduced(8, [e], f)]), 0, u);
  }

  /** The statement `;` is accepted: `ecmd ::= SEMI` is shift-reduced, the optimized-out
      `cmdlist ::= ecmd` is skipped, and `input ::= cmdlist` accepts at the end of input. */
  lemma SemicolonIsAccepted(t: Token, u: Token)
    ensures Inv(TABLES, CERTIFICATE, LIMIT, INITIAL.stack)
    ensures var e := Entry(40, 1, Leaf(t));
      var f := Entry(1, 11, Built(8, [Leaf(t)]));
      Feed(TABLES, CERTIFICATE, LIMIT, Feed(TABLES, CERTIFICATE, LIMIT, INITIAL, 1, t), 0, u)
      == Config([], [Shifted(e), Reduced(8, [e], f), Accepted(5, [f]), Discarded(0, u)])
  {
    hide WellFormed, Feed;
    TransactionsAreWellFormed();
    InitialInv(TABLES, CERTIFICATE, LIMIT);
    FirstCall(t);
    SecondCall(t, u);
  }
}

/** The sub-grammar's parser decides its language: whatever it accepts is a sentence, every
    sentence is accepted, and none has two meanings. */
module TransactionsLanguage {
  import opened Wrappers
  import opened Tables
  import opened Machine
  import opened Theorems
  import opened Depth
  import opened Completeness
  import opened Language
  import opened Transactions
  import Loop = Parser

  const FOLLOW: Follow := Follow([
      map[Item(0, 0) := {3}, Item(5, 0) := {0}, Item(6, 0) := {0, 1, 2, 3}, Item(7, 0) := {0, 1, 2, 3},
          Item(8, 0) := {0, 1, 2, 3}, Item(9, 0) := {0, 1, 2, 3}, Item(10, 0) := {3}],
      map[Item(0, 0) := {3}, Item(5, 1) := {0}, Item(6, 1) := {0, 1, 2, 3}, Item(8, 0) := {0, 1, 2, 3},
          Item(9, 0) := {0, 1, 2, 3}, Item(10, 0) := {3}],
      map[Item(1, 0) := {1}, Item(2, 0) := {1}, Item(9, 1) := {0, 1, 2, 3}],
      map[Item(2, 1) := {1}, Item(3, 0) := {1, 4}, Item(4, 0) := {1, 4}],
      map[Item(2, 2) := {1}, Item(11, 0) := {1}, Item(12, 0) := {1}, Item(13, 0) := {1}],
      map[Item(12, 1) := {1}, Item(13, 1) := {1}, Item(14, 0) := {1}],
      map[Item(9, 2) := {0, 1, 2, 3}]
    ],
    [{}, {}, {}, {}, {}, {}, {}, {}, {}, {1, 2, 3}, {1, 2, 3}, {1, 2, 3}, {2}, {3}, {3}, {5}, {4}, {2, 3, 5, 6, 7}],
    DEPTH.nullable)

  // ----- reading the certificate -----

  lemma After0()
    ensures LA(FOLLOW, 0, Item(0, 0)) == {3}
    ensures LA(FOLLOW, 0, Item(5, 0)) == {0}
    ensures LA(FOLLOW, 0, Item(6, 0)) == {0, 1, 2, 3}
    ensures LA(FOLLOW, 0, Item(7, 0)) == {0, 1, 2, 3}
    ensures LA(FOLLOW, 0, Item(8, 0)) == {0, 1, 2, 3}
    ensures LA(FOLLOW, 0, Item(9, 0)) == {0, 1, 2, 3}
    ensures LA(FOLLOW, 0, Item(10, 0)) == {3}
  {
  }

  lemma After1()
    ensures LA(FOLLOW, 1, Item(0, 0)) == {3}
    ensures LA(FOLLOW, 1, Item(5, 1)) == {0}
    ensures LA(FOLLOW, 1, Item(6, 1)) == {0, 1, 2, 3}
    ensures LA(FOLLOW, 1, Item(8, 0)) == {0, 1, 2, 3}
    ensures LA(FOLLOW, 1, Item(9, 0)) == {0, 1, 2, 3}
    ensures LA(FOLLOW, 1, Item(10, 0)) == {3}
  {
  }

  lemma After2()
    ensures LA(FOLLOW, 2, Item(1, 0)) == {1}
    ensures LA(FOLLOW, 2, Item(2, 0)) == {1}
    ensures LA(FOLLOW, 2, Item(9, 1)) == {0, 1, 2, 3}
  {
  }

  lemma After3()
    ensures LA(FOLLOW, 3, Item(2, 1)) == {1}
    ensures LA(FOLLOW, 3, Item(3, 0)) == {1, 4}
    ensures LA(FOLLOW, 3, Item(4, 0)) == {1, 4}
  {
  }

  lemma After4()
    ensures LA(FOLLOW, 4, Item(2, 2)) == {1}
    ensures LA(FOLLOW, 4, Item(11, 0)) == {1}
    ensures LA(FOLLOW, 4, Item(12, 0)) == {1}
    ensures LA(FOLLOW, 4, Item(13, 0)) == {1}
  {
  }

  lemma After5()
    ensures LA(FOLLOW, 5, Item(12, 1)) == {1}
    ensures LA(FOLLOW, 5, Item(13, 1)) == {1}
    ensures LA(FOLLOW, 5, Item(14, 0)) == {1}
  {
  }

  lemma After6()
    ensures LA(FOLLOW, 6, Item(9, 2)) == {0, 1, 2, 3}
  {
  }

  /** Only EXPLAIN, BEGIN and DEFERRED may be read as another token of the grammar. */
  lemma Readers(t: nat, s: nat)
    requires t < TABLES.nTerminal
    ensures s in Readings(TABLES, t) <==>
      s == t || (s == 6 && (t == 2 || t == 3 || t == 5)) || (s == 8 && t > 0)
  {
    hide Fallback;
    Fallbacks(t);
  }

  lemma Fallbacks(t: nat)
    requires t < TABLES.nTerminal
    ensures Fallback(TABLES, t) == if t == 2 || t == 3 || t == 5 then 6 else 0
  {
  }

  lemma FirstTerminal(s: nat)
    requires s < 6
    ensures FirstOf(TABLES, FOLLOW, One(s)) == {s}
  {
    hide Readings;
    forall t: nat | t < TABLES.nTerminal
      ensures MayRead(TABLES, One(s), t) <==> t == s
    {
      Readers(t, s);
    }
  }

  lemma FirstNonterminal(x: nat)
    requires TABLES.nTerminal <= x < TABLES.nSymbol
    ensures FirstOf(TABLES, FOLLOW, One(x)) == FOLLOW.first[x]
    ensures forall t :: 0 <= t < TABLES.nTerminal ==> !MayRead(TABLES, One(x), t)
  {
    hide Readings;
    forall t: nat | t < TABLES.nTerminal
      ensures !MayRead(TABLES, One(x), t)
    {
      Readers(t, x);
    }
  }

  lemma FirstName()
    ensures FirstOf(TABLES, FOLLOW, AnyOf([6, 7])) == {2, 3, 5, 6, 7}
  {
    hide Readings;
    forall t: nat | t < TABLES.nTerminal
      ensures MayRead(TABLES, AnyOf([6, 7]), t) <==> t in {2, 3, 5, 6, 7}
    {
      Readers(t, 6);
      Readers(t, 7);
      assert 6 in [6, 7] && 7 in [6, 7];
    }
  }

  // ----- what may begin a right side -----

  lemma FirstStep(ys: seq<Sym>, k: nat, after: set<nat>)
    requires k < |ys|
    ensures FirstFrom(TABLES, FOLLOW, ys, k, after)
         == FirstOf(TABLES, FOLLOW, ys[k]) +
            if MayBeEmpty(FOLLOW, ys[k]) then FirstFrom(TABLES, FOLLOW, ys, k + 1, after) else {}
  {
  }

  lemma NothingLeft(ys: seq<Sym>, after: set<nat>)
    ensures FirstFrom(TABLES, FOLLOW, ys, |ys|, after) == after
  {
  }

  /** What may follow a nonterminal in a right side. */
  lemma Rests(after: set<nat>)
    ensures FirstFrom(TABLES, FOLLOW, [One(10), One(11)], 1, after) == {1, 2, 3}
    ensures FirstFrom(TABLES, FOLLOW, [One(12), One(13), One(1)], 1, after) == {3}
    ensures FirstFrom(TABLES, FOLLOW, [One(12), One(13), One(1)], 2, after) == {1}
    ensures FirstFrom(TABLES, FOLLOW, [One(3), One(15), One(16)], 2, after) == {4} + after
  {
    hide FirstFrom, FirstOf;
    FirstNonterminal(11);
    FirstNonterminal(13);
    FirstNonterminal(16);
    FirstTerminal(1);
    FirstStep([One(10), One(11)], 1, after);
    FirstStep([One(12), One(13), One(1)], 1, after);
    FirstStep([One(12), One(13), One(1)], 2, after);
    FirstStep([One(3), One(15), One(16)], 2, after);
    NothingLeft([One(3), One(15), One(16)], after);
  }

  // ----- first and nullable are closed -----

  lemma EmptyRuleCloses(r: nat)
    requires r < |TABLES.rules| && Rhs(TABLES, r) == [] && Lhs(TABLES, r) in FOLLOW.nullable
    ensures FirstClosed(TABLES, FOLLOW, r)
  {
  }

  /** A right side closes its rule if its first symbol is not nullable. */
  lemma RuleCloses(r: nat)
    requires r < |TABLES.rules| && |Rhs(TABLES, r)| > 0 && !MayBeEmpty(FOLLOW, Rhs(TABLES, r)[0])
    requires FirstOf(TABLES, FOLLOW, Rhs(TABLES, r)[0]) <= First(TABLES, FOLLOW, Lhs(TABLES, r))
    ensures FirstClosed(TABLES, FOLLOW, r)
  {
    hide FirstOf, MayBeEmpty;
  }

  lemma EcmdCloses()
    ensures FirstClosed(TABLES, FOLLOW, 9)
  {
    hide FirstOf, FirstFrom;
    Rests({});
    NothingLeft([One(12), One(13), One(1)], {});
    FirstNonterminal(12);
    FirstStep([One(12), One(13), One(1)], 0, {});
    assert Rhs(TABLES, 9) == [One(12), One(13), One(1)];
    assert !MayBeEmpty(FOLLOW, Rhs(TABLES, 9)[2]);
  }

  lemma FirstCloses(r: nat)
    requires r < |TABLES.rules|
    ensures FirstClosed(TABLES, FOLLOW, r)
  {
    hide FirstOf, FirstFrom, FirstClosed, Readings;
    if r == 9 {
      EcmdCloses();
    } else if r == 3 || r == 10 || r == 11 {
      EmptyRuleCloses(r);
    } else {
      FirstSymbols();
      RuleCloses(r);
    }
  }

  lemma FirstSymbols()
    ensures forall s :: 0 <= s < 6 ==> FirstOf(TABLES, FOLLOW, One(s)) == {s}
    ensures forall x :: 9 <= x < 18 ==> FirstOf(TABLES, FOLLOW, One(x)) == FOLLOW.first[x]
    ensures FirstOf(TABLES, FOLLOW, AnyOf([6, 7])) == {2, 3, 5, 6, 7}
  {
    hide FirstOf;
    forall s | 0 <= s < 6
      ensures FirstOf(TABLES, FOLLOW, One(s)) == {s}
    {
      FirstTerminal(s);
    }
    forall x | 9 <= x < 18
      ensures FirstOf(TABLES, FOLLOW, One(x)) == FOLLOW.first[x]
    {
      FirstNonterminal(x);
    }
    FirstName();
  }

  lemma StartCloses(r: nat)
    requires r < |TABLES.rules|
    ensures StartClosed(TABLES, CERTIFICATE, FOLLOW, r)
  {
    hide LA;
    After0();
    assert Lhs(TABLES, r) == TABLES.start ==> r == 5;
  }

  // ----- the actions on the tokens that may come -----

  lemma Actions0()
    ensures ShiftAction(TABLES, 0, 1) == 25
    ensures ShiftAction(TABLES, 0, 2) == 17
    ensures ShiftAction(TABLES, 0, 3) == 42
  {
    hide ShiftAction, ShiftEntry;
    Decode0(1);
    Decode0(2);
    Decode0(3);
    Decode0(6);
    Decode0(8);
    ActionCases(0, 1);
    ActionCases(0, 2);
    ActionCases(0, 3);
  }

  lemma Actions1()
    ensures ShiftAction(TABLES, 1, 0) == 37
    ensures ShiftAction(TABLES, 1, 1) == 25
    ensures ShiftAction(TABLES, 1, 2) == 17
    ensures ShiftAction(TABLES, 1, 3) == 42
  {
    hide ShiftAction, ShiftEntry;
    Decode1(0);
    Decode1(1);
    Decode1(2);
    Decode1(3);
    Decode1(6);
    Decode1(8);
    ActionCases(1, 0);
    ActionCases(1, 1);
    ActionCases(1, 2);
    ActionCases(1, 3);
  }

  lemma Actions2()
    ensures ShiftAction(TABLES, 2, 3) == 3
  {
    hide ShiftAction, ShiftEntry;
    Decode2(3);
    Decode2(6);
    Decode2(8);
    ActionCases(2, 3);
  }

  lemma Actions3()
    ensures ShiftAction(TABLES, 3, 1) == 35
    ensures ShiftAction(TABLES, 3, 4) == 35
    ensures ShiftAction(TABLES, 3, 5) == 21
  {
    hide ShiftAction, ShiftEntry;
    Decode3(1);
    Decode3(4);
    Decode3(5);
    Decode3(6);
    Decode3(8);
    ActionCases(3, 1);
    ActionCases(3, 4);
    ActionCases(3, 5);
  }

  lemma Actions4()
    ensures ShiftAction(TABLES, 4, 1) == 43
    ensures ShiftAction(TABLES, 4, 4) == 5
  {
    hide ShiftAction, ShiftEntry;
    Decode4(1);
    Decode4(4);
    Decode4(8);
    ActionCases(4, 1);
    ActionCases(4, 4);
  }

  lemma Actions5()
    ensures ShiftAction(TABLES, 5, 1) == 44
    ensures ShiftAction(TABLES, 5, 2) == 31
    ensures ShiftAction(TABLES, 5, 3) == 31
    ensures ShiftAction(TABLES, 5, 5) == 31
    ensures ShiftAction(TABLES, 5, 6) == 31
    ensures ShiftAction(TABLES, 5, 7) == 31
  {
    hide ShiftAction, ShiftEntry;
    Decode5(1);
    Decode5(2);
    Decode5(3);
    Decode5(5);
    Decode5(6);
    Decode5(7);
    Decode5(8);
    ActionCases(5, 1);
    ActionCases(5, 2);
    ActionCases(5, 3);
    ActionCases(5, 5);
    ActionCases(5, 6);
    ActionCases(5, 7);
  }

  lemma Actions6()
    ensures ShiftAction(TABLES, 6, 1) == 26
  {
    hide ShiftAction, ShiftEntry;
    Decode6(1);
    Decode6(8);
    ActionCases(6, 1);
  }

  lemma ActionCases(q: nat, t: nat)
    requires q <= TABLES.maxShift && t < TABLES.nTerminal
    ensures var f := if t == 2 || t == 3 || t == 5 then 6 else 0;
      ShiftAction(TABLES, q, t)
      == if ShiftEntry(TABLES, q, t).Some? then ShiftEntry(TABLES, q, t).value
         else if f != 0 && ShiftEntry(TABLES, q, f).Some? then ShiftEntry(TABLES, q, f).value
         else if t > 0 && ShiftEntry(TABLES, q, 8).Some? then ShiftEntry(TABLES, q, 8).value
         else TABLES.dflt[q]
  {
    hide ShiftEntry, Fallback, ShiftAction;
    Fallbacks(t);
    Loop.ShiftActionCases(TABLES, q, t);
  }

  // ----- the items, state by state -----

  /** An item before a token other than a name. */
  lemma TerminalItem(q: nat, i: Item, s: nat)
    requires i.dot < |Rhs(TABLES, i.rule)| && Rhs(TABLES, i.rule)[i.dot] == One(s) && s < 6
    requires TokenCarries(TABLES, CERTIFICATE, FOLLOW, q, i, s)
    ensures ItemClosed(TABLES, CERTIFICATE, FOLLOW, q, i)
  {
    hide TokenCarries, SymbolCarries, Rhs, Readings, FirstFrom;
    forall r | 0 <= r < |TABLES.rules|
      ensures StartsClosed(TABLES, CERTIFICATE, FOLLOW, q, i, r)
    {
      LeftSide(r);
    }
    forall t | 0 <= t < TABLES.nTerminal && MayRead(TABLES, One(s), t)
      ensures t == s
    {
      Readers(t, s);
    }
  }

  lemma LeftSide(r: nat)
    requires r < |TABLES.rules|
    ensures TABLES.nTerminal <= Lhs(TABLES, r) < TABLES.nSymbol
  {
  }

  /** The rules with left side x. */
  function RulesFor(x: nat): seq<nat> {
    match x
    case 9 => [5]
    case 10 => [6, 7]
    case 11 => [8, 9]
    case 12 => [0, 10]
    case 13 => [1]
    case 14 => [2]
    case 15 => [3, 4]
    case 16 => [11, 12, 13]
    case 17 => [14]
    case _ => []
  }

  lemma RuleIsListed(r: nat)
    requires r < |TABLES.rules|
    ensures r in RulesFor(Lhs(TABLES, r))
  {
    assert RulesFor(10)[1] == 7 && RulesFor(11)[1] == 9 && RulesFor(12)[1] == 10;
    assert RulesFor(15)[1] == 4 && RulesFor(16)[1] == 12 && RulesFor(16)[2] == 13;
  }

  /** An item before a nonterminal. */
  lemma NonterminalItem(q: nat, i: Item, x: nat)
    requires i.dot < |Rhs(TABLES, i.rule)| && Rhs(TABLES, i.rule)[i.dot] == One(x)
    requires TABLES.nTerminal <= x < TABLES.nSymbol
    requires forall r :: r in RulesFor(x) ==> StartsClosed(TABLES, CERTIFICATE, FOLLOW, q, i, r)
    requires SymbolCarries(TABLES, CERTIFICATE, FOLLOW, q, i, x)
    ensures ItemClosed(TABLES, CERTIFICATE, FOLLOW, q, i)
  {
    hide TokenCarries, SymbolCarries, Rhs, Lhs, FirstFrom, FirstOf, MayRead, RulesFor;
    FirstNonterminal(x);
    forall r | 0 <= r < |TABLES.rules|
      ensures r in RulesFor(Lhs(TABLES, r))
    {
      RuleIsListed(r);
    }
  }

  /** A complete item. */
  lemma CompleteItem(q: nat, i: Item)
    requires i.dot == |Rhs(TABLES, i.rule)|
    requires forall a :: a in LA(FOLLOW, q, i) ==> ShiftAction(TABLES, q, a) == 32 + i.rule
    ensures ItemClosed(TABLES, CERTIFICATE, FOLLOW, q, i)
  {
    hide Rhs, LA, ShiftAction;
  }

  lemma RightSides(r: nat)
    requires r < |TABLES.rules|
    ensures Rhs(TABLES, r) == RULES[r].rhs && Lhs(TABLES, r) == RULES[r].lhs
    ensures OptimizedOut(TABLES, r) <==> r == 7
  {
  }

  lemma At0Rule0Dot0()
    ensures ItemClosed(TABLES, CERTIFICATE, FOLLOW, 0, Item(0, 0))
  {
    hide ShiftAction, LA, ItemClosed;
    After0();
    Actions0();
    RightSides(0);
    TerminalItem(0, Item(0, 0), 2);
  }

  lemma At0Rule5Dot0()
    ensures ItemClosed(TABLES, CERTIFICATE, FOLLOW, 0, Item(5, 0))
  {
    hide LA, ItemClosed, GotoEntry, FirstFrom, Lhs, Rhs;
    After0();
    After1();
    GotoLookups0();
    RightSides(5);
    RightSides(6);
    RightSides(7);
    NothingLeft(RULES[5].rhs, LA(FOLLOW, 0, Item(5, 0)));
    NonterminalItem(0, Item(5, 0), 10);
  }

  lemma At0Rule6Dot0()
    ensures ItemClosed(TABLES, CERTIFICATE, FOLLOW, 0, Item(6, 0))
  {
    hide LA, ItemClosed, GotoEntry, FirstFrom, Lhs, Rhs;
    After0();
    After1();
    GotoLookups0();
    RightSides(6);
    RightSides(6);
    RightSides(7);
    Rests(LA(FOLLOW, 0, Item(6, 0)));
    NonterminalItem(0, Item(6, 0), 10);
  }

  lemma At0Rule7Dot0()
    ensures ItemClosed(TABLES, CERTIFICATE, FOLLOW, 0, Item(7, 0))
  {
    hide LA, ItemClosed, GotoEntry, FirstFrom, Lhs, Rhs;
    After0();
    After1();
    GotoLookups0();
    RightSides(7);
    RightSides(8);
    RightSides(9);
    NothingLeft(RULES[7].rhs, LA(FOLLOW, 0, Item(7, 0)));
    NonterminalItem(0, Item(7, 0), 11);
  }

  lemma At0Rule8Dot0()
    ensures ItemClosed(TABLES, CERTIFICATE, FOLLOW, 0, Item(8, 0))
  {
    hide ShiftAction, LA, ItemClosed;
    After0();
    Actions0();
    RightSides(8);
    TerminalItem(0, Item(8, 0), 1);
  }

  lemma At0Rule9Dot0()
    ensures ItemClosed(TABLES, CERTIFICATE, FOLLOW, 0, Item(9, 0))
  {
    hide LA, ItemClosed, GotoEntry, FirstFrom, Lhs, Rhs;
    After0();
    After2();
    GotoLookups0();
    RightSides(9);
    RightSides(0);
    RightSides(10);
    Rests(LA(FOLLOW, 0, Item(9, 0)));
    NonterminalItem(0, Item(9, 0), 12);
  }

  lemma At0Rule10Dot0()
    ensures ItemClosed(TABLES, CERTIFICATE, FOLLOW, 0, Item(10, 0))
  {
    hide LA, ShiftAction;
    After0();
    Actions0();
    CompleteItem(0, Item(10, 0));
  }

  lemma At1Rule0Dot0()
    ensures ItemClosed(TABLES, CERTIFICATE, FOLLOW, 1, Item(0, 0))
  {
    hide ShiftAction, LA, ItemClosed;
    After1();
    Actions1();
    RightSides(0);
    TerminalItem(1, Item(0, 0), 2);
  }

  lemma At1Rule5Dot1()
    ensures ItemClosed(TABLES, CERTIFICATE, FOLLOW, 1, Item(5, 1))
  {
    hide LA, ShiftAction;
    After1();
    Actions1();
    CompleteItem(1, Item(5, 1));
  }

  lemma At1Rule6Dot1()
    ensures ItemClosed(TABLES, CERTIFICATE, FOLLOW, 1, Item(6, 1))
  {
    hide LA, ItemClosed, GotoEntry, FirstFrom, Lhs, Rhs;
    After1();
    GotoLookups1();
    RightSides(6);
    RightSides(8);
    RightSides(9);
    NothingLeft(RULES[6].rhs, LA(FOLLOW, 1, Item(6, 1)));
    NonterminalItem(1, Item(6, 1), 11);
  }

  lemma At1Rule8Dot0()
    ensures ItemClosed(TABLES, CERTIFICATE, FOLLOW, 1, Item(8, 0))
  {
    hide ShiftAction, LA, ItemClosed;
    After1();
    Actions1();
    RightSides(8);
    TerminalItem(1, Item(8, 0), 1);
  }

  lemma At1Rule9Dot0()
    ensures ItemClosed(TABLES, CERTIFICATE, FOLLOW, 1, Item(9, 0))
  {
    hide LA, ItemClosed, GotoEntry, FirstFrom, Lhs, Rhs;
    After1();
    After2();
    GotoLookups1();
    RightSides(9);
    RightSides(0);
    RightSides(10);
    Rests(LA(FOLLOW, 1, Item(9, 0)));
    NonterminalItem(1, Item(9, 0), 12);
  }

  lemma At1Rule10Dot0()
    ensures ItemClosed(TABLES, CERTIFICATE, FOLLOW, 1, Item(10, 0))
  {
    hide LA, ShiftAction;
    After1();
    Actions1();
    CompleteItem(1, Item(10, 0));
  }

  lemma At2Rule1Dot0()
    ensures ItemClosed(TABLES, CERTIFICATE, FOLLOW, 2, Item(1, 0))
  {
    hide LA, ItemClosed, GotoEntry, FirstFrom, Lhs, Rhs;
    After2();
    GotoLookups2();
    RightSides(1);
    RightSides(2);
    NothingLeft(RULES[1].rhs, LA(FOLLOW, 2, Item(1, 0)));
    NonterminalItem(2, Item(1, 0), 14);
  }

  lemma At2Rule2Dot0()
    ensures ItemClosed(TABLES, CERTIFICATE, FOLLOW, 2, Item(2, 0))
  {
    hide ShiftAction, LA, ItemClosed;
    After2();
    After3();
    Actions2();
    RightSides(2);
    TerminalItem(2, Item(2, 0), 3);
  }

  lemma At2Rule9Dot1()
    ensures ItemClosed(TABLES, CERTIFICATE, FOLLOW, 2, Item(9, 1))
  {
    hide LA, ItemClosed, GotoEntry, FirstFrom, Lhs, Rhs;
    After2();
    After6();
    GotoLookups2();
    RightSides(9);
    RightSides(1);
    Rests(LA(FOLLOW, 2, Item(9, 1)));
    NonterminalItem(2, Item(9, 1), 13);
  }

  lemma At3Rule2Dot1()
    ensures ItemClosed(TABLES, CERTIFICATE, FOLLOW, 3, Item(2, 1))
  {
    hide LA, ItemClosed, GotoEntry, FirstFrom, Lhs, Rhs;
    After3();
    After4();
    GotoLookups3();
    RightSides(2);
    RightSides(3);
    RightSides(4);
    Rests(LA(FOLLOW, 3, Item(2, 1)));
    NonterminalItem(3, Item(2, 1), 15);
  }

  lemma At3Rule3Dot0()
    ensures ItemClosed(TABLES, CERTIFICATE, FOLLOW, 3, Item(3, 0))
  {
    hide LA, ShiftAction;
    After3();
    Actions3();
    CompleteItem(3, Item(3, 0));
  }

  lemma At3Rule4Dot0()
    ensures ItemClosed(TABLES, CERTIFICATE, FOLLOW, 3, Item(4, 0))
  {
    hide ShiftAction, LA, ItemClosed;
    After3();
    Actions3();
    RightSides(4);
    TerminalItem(3, Item(4, 0), 5);
  }

  lemma At4Rule2Dot2()
    ensures ItemClosed(TABLES, CERTIFICATE, FOLLOW, 4, Item(2, 2))
  {
    hide LA, ItemClosed, GotoEntry, FirstFrom, Lhs, Rhs;
    After4();
    GotoLookups4();
    RightSides(2);
    RightSides(11);
    RightSides(12);
    RightSides(13);
    NothingLeft(RULES[2].rhs, LA(FOLLOW, 4, Item(2, 2)));
    NonterminalItem(4, Item(2, 2), 16);
  }

  lemma At4Rule11Dot0()
    ensures ItemClosed(TABLES, CERTIFICATE, FOLLOW, 4, Item(11, 0))
  {
    hide LA, ShiftAction;
    After4();
    Actions4();
    CompleteItem(4, Item(11, 0));
  }

  lemma At4Rule12Dot0()
    ensures ItemClosed(TABLES, CERTIFICATE, FOLLOW, 4, Item(12, 0))
  {
    hide ShiftAction, LA, ItemClosed;
    After4();
    After5();
    Actions4();
    RightSides(12);
    TerminalItem(4, Item(12, 0), 4);
  }

  lemma At4Rule13Dot0()
    ensures ItemClosed(TABLES, CERTIFICATE, FOLLOW, 4, Item(13, 0))
  {
    hide ShiftAction, LA, ItemClosed;
    After4();
    After5();
    Actions4();
    RightSides(13);
    TerminalItem(4, Item(13, 0), 4);
  }

  lemma At5Rule12Dot1()
    ensures ItemClosed(TABLES, CERTIFICATE, FOLLOW, 5, Item(12, 1))
  {
    hide LA, ShiftAction;
    After5();
    Actions5();
    CompleteItem(5, Item(12, 1));
  }

  lemma At5Rule13Dot1()
    ensures ItemClosed(TABLES, CERTIFICATE, FOLLOW, 5, Item(13, 1))
  {
    hide LA, ItemClosed, GotoEntry, FirstFrom, Lhs, Rhs;
    After5();
    GotoLookups5();
    RightSides(13);
    RightSides(14);
    NothingLeft(RULES[13].rhs, LA(FOLLOW, 5, Item(13, 1)));
    NonterminalItem(5, Item(13, 1), 17);
  }

  lemma At5Rule14Dot0()
    ensures ItemClosed(TABLES, CERTIFICATE, FOLLOW, 5, Item(14, 0))
  {
    hide ShiftAction, LA, Readings, Rhs, Lhs;
    Actions5();
    RightSides(14);
    forall t | 0 <= t < TABLES.nTerminal && MayRead(TABLES, AnyOf([6, 7]), t)
      ensures TokenCarries(TABLES, CERTIFICATE, FOLLOW, 5, Item(14, 0), t)
    {
      Readers(t, 6);
      Readers(t, 7);
    }
    forall r | 0 <= r < |TABLES.rules|
      ensures StartsClosed(TABLES, CERTIFICATE, FOLLOW, 5, Item(14, 0), r)
    {
      LeftSide(r);
    }
  }

  lemma At6Rule9Dot2()
    ensures ItemClosed(TABLES, CERTIFICATE, FOLLOW, 6, Item(9, 2))
  {
    hide ShiftAction, LA, ItemClosed;
    After6();
    Actions6();
    RightSides(9);
    TerminalItem(6, Item(9, 2), 1);
  }

  lemma GotoLookups0()
    ensures GotoEntry(TABLES, 0, 10) == Some(1)
    ensures GotoEntry(TABLES, 0, 11) == Some(1)
    ensures GotoEntry(TABLES, 0, 12) == Some(2)
  {
  }

  lemma GotoLookups1()
    ensures GotoEntry(TABLES, 1, 11) == Some(23)
    ensures GotoEntry(TABLES, 1, 12) == Some(2)
  {
  }

  lemma GotoLookups2()
    ensures GotoEntry(TABLES, 2, 13) == Some(6)
    ensures GotoEntry(TABLES, 2, 14) == Some(18)
  {
  }

  lemma GotoLookups3()
    ensures GotoEntry(TABLES, 3, 15) == Some(4)
  {
  }

  lemma GotoLookups4()
    ensures GotoEntry(TABLES, 4, 16) == Some(19)
  {
  }

  lemma GotoLookups5()
    ensures GotoEntry(TABLES, 5, 17) == Some(30)
  {
  }

  lemma Items0(i: Item)
    requires i in ItemsAt(CERTIFICATE, 0)
    ensures ItemClosed(TABLES, CERTIFICATE, FOLLOW, 0, i)
  {
    hide ItemClosed;
    At0Rule0Dot0();
    At0Rule5Dot0();
    At0Rule6Dot0();
    At0Rule7Dot0();
    At0Rule8Dot0();
    At0Rule9Dot0();
    At0Rule10Dot0();
  }

  lemma Items1(i: Item)
    requires i in ItemsAt(CERTIFICATE, 1)
    ensures ItemClosed(TABLES, CERTIFICATE, FOLLOW, 1, i)
  {
    hide ItemClosed;
    At1Rule0Dot0();
    At1Rule5Dot1();
    At1Rule6Dot1();
    At1Rule8Dot0();
    At1Rule9Dot0();
    At1Rule10Dot0();
  }

  lemma Items2(i: Item)
    requires i in ItemsAt(CERTIFICATE, 2)
    ensures ItemClosed(TABLES, CERTIFICATE, FOLLOW, 2, i)
  {
    hide ItemClosed;
    At2Rule1Dot0();
    At2Rule2Dot0();
    At2Rule9Dot1();
  }

  lemma Items3(i: Item)
    requires i in ItemsAt(CERTIFICATE, 3)
    ensures ItemClosed(TABLES, CERTIFICATE, FOLLOW, 3, i)
  {
    hide ItemClosed;
    At3Rule2Dot1();
    At3Rule3Dot0();
    At3Rule4Dot0();
  }

  lemma Items4(i: Item)
    requires i in ItemsAt(CERTIFICATE, 4)
    ensures ItemClosed(TABLES, CERTIFICATE, FOLLOW, 4, i)
  {
    hide ItemClosed;
    At4Rule2Dot2();
    At4Rule11Dot0();
    At4Rule12Dot0();
    At4Rule13Dot0();
  }

  lemma Items5(i: Item)
    requires i in ItemsAt(CERTIFICATE, 5)
    ensures ItemClosed(TABLES, CERTIFICATE, FOLLOW, 5, i)
  {
    hide ItemClosed;
    At5Rule12Dot1();
    At5Rule13Dot1();
    At5Rule14Dot0();
  }

  lemma Items6(i: Item)
    requires i in ItemsAt(CERTIFICATE, 6)
    ensures ItemClosed(TABLES, CERTIFICATE, FOLLOW, 6, i)
  {
    hide ItemClosed;
    At6Rule9Dot2();
  }

  /** The tables and FOLLOW meet the closure conditions, so the results of `Language` apply. */
  lemma TransactionsAreClosed()
    ensures Closed(TABLES, CERTIFICATE, FOLLOW)
  {
    hide ItemClosed, FirstClosed, StartClosed, GotoEntry;
    forall r | 0 <= r < |TABLES.rules|
      ensures FirstClosed(TABLES, FOLLOW, r) && StartClosed(TABLES, CERTIFICATE, FOLLOW, r)
    {
      FirstCloses(r);
      StartCloses(r);
    }
    forall q, i: Item | 0 <= q <= TABLES.maxShift && i in ItemsAt(CERTIFICATE, q) && i.rule < |TABLES.rules|
      ensures ItemClosed(TABLES, CERTIFICATE, FOLLOW, q, i)
    {
      StateIsClosed(q, i);
    }
    GotoLookups();
  }

  lemma StateIsClosed(q: nat, i: Item)
    requires q <= TABLES.maxShift && i in ItemsAt(CERTIFICATE, q)
    ensures ItemClosed(TABLES, CERTIFICATE, FOLLOW, q, i)
  {
    hide ItemClosed, ItemsAt;
    match q
    case 0 => Items0(i);
    case 1 => Items1(i);
    case 2 => Items2(i);
    case 3 => Items3(i);
    case 4 => Items4(i);
    case 5 => Items5(i);
    case 6 => Items6(i);
  }

  /** On n tokens a stack of 2n + 5 entries accepts exactly the sentences. */
  lemma TransactionsDecide(limit: nat, tokens: Input, u: Token)
    requires Tokens(TABLES, tokens) && 2 * |tokens| + 5 <= limit
    ensures Accepts(TABLES, CERTIFICATE, limit, tokens, u) <==> IsSentence(TABLES, tokens)
  {
    hide WellFormed, Closed, Bounded, Accepts, IsSentence;
    TransactionsAreWellFormed();
    TransactionsAreClosed();
    TransactionsAreBounded();
    BoundedParserDecides(TABLES, CERTIFICATE, FOLLOW, DEPTH, limit, tokens, u);
  }

  /** No two trees over the same tokens build different values. */
  lemma TransactionsAreUnambiguous(x: Tree, y: Tree)
    requires Valid(TABLES, x) && Valid(TABLES, y) && Symbol(TABLES, x) == TABLES.start == Symbol(TABLES, y)
    requires Yield(x) == Yield(y)
    ensures Value(TABLES, x) == Value(TABLES, y)
  {
    hide WellFormed, Closed, Valid, Yield, Value;
    TransactionsAreWellFormed();
    TransactionsAreClosed();
    MeaningIsUnique(TABLES, CERTIFICATE, FOLLOW, x, y);
  }
}

/** The rules for nested argument lists, `anylist`, in the generator's format.  Each opening
    parenthesis deepens the stack by two, so for every depth there is an input that overflows on
    the empty rule `anylist ::=` and drops the top entry undestroyed. */
module Nesting {
  import opened Wrappers
  import opened Tables
  import opened Machine
  import opened Driver
  import opened History
  import opened Runs
  import opened Theorems
  import Parser

  // Terminals: 0 $, 1 SEMI, 2 LP, 3 RP, 4 ANY.  Nonterminals: 5 input, 6 anylist.

  const RULES: seq<Rule> := [
    Rule(5, [One(6)], false), // 0: input ::= anylist
    Rule(5, [One(1), One(6)], false), // 1: input ::= SEMI anylist
    Rule(6, [], false), // 2: anylist ::=
    Rule(6, [One(6), One(2), One(6), One(3)], false), // 3: anylist ::= anylist LP anylist RP
    Rule(6, [One(6), One(4)], false) // 4: anylist ::= anylist ANY
  ]

  /** States 2 and 3 have no gotos. */
  const TABLES: Tables := Tables(
    [1, 3, 4, 9, 10, 4, 5, 10, 17, 2],
    [1, 6, 2, 3, 4, 2, 6, 4, 5, 6],
    [-1, 10, 3, 3, 10, 0],
    [3, -5, -6, -6, 0], -6,
    [13, 13, 11, 12, 13, 16],
    [0, 0, 0, 0, 0],
    RULES, 5, 7, 4, 5, 5, 6)

  const CERTIFICATE: Certificate := Certificate(
    [ {Item(0, 0), Item(1, 0), Item(2, 0), Item(3, 0), Item(4, 0)},
      {Item(1, 1), Item(2, 0), Item(3, 0), Item(4, 0)},
      {Item(0, 1), Item(3, 1), Item(4, 1)},
      {Item(1, 2), Item(3, 1), Item(4, 1)},
      {Item(3, 2), Item(2, 0), Item(3, 0), Item(4, 0)},
      {Item(3, 3), Item(3, 1), Item(4, 1)} ],
    [ AnyOf([]), One(1), One(6), One(6), One(2), One(6) ],
    [-1, -1, -1, -1, -1, 2, 1],
    1, 2)

  // ----- the tables are well formed -----

  /** The shift rows, read back. */
  function Row(q: nat, x: nat): Option<nat> {
    match q
    case 0 => if x == 1 then Some(1) else None
    case 2 => Pair(x)
    case 3 => Pair(x)
    case 5 => if x == 3 then Some(9) else Pair(x)
    case _ => None
  }

  function Pair(x: nat): Option<nat> {
    if x == 2 then Some(4) else if x == 4 then Some(10) else None
  }

  lemma Decode(q: nat, x: nat)
    requires q <= 5 && x < 5
    ensures ShiftEntry(TABLES, q, x) == Row(q, x)
  {
  }

  lemma Gotos()
    ensures GotoEntry(TABLES, 0, 5) == Some(17) && GotoEntry(TABLES, 0, 6) == Some(2)
    ensures GotoEntry(TABLES, 1, 6) == Some(3) && GotoEntry(TABLES, 4, 6) == Some(5)
  {
  }

  lemma NoGotosHold(q: nat)
    requires q == 2 || q == 3
    ensures NoGotos(TABLES, q)
  {
  }

  lemma RuleHolds(r: nat)
    requires r < |TABLES.rules|
    ensures RuleOK(TABLES, r)
  {
  }

  lemma LayoutHolds()
    ensures Layout(TABLES)
  {
    hide RuleOK, NoGotos;
    NoGotosHold(2);
    NoGotosHold(3);
    forall r | 0 <= r < |TABLES.rules|
      ensures RuleOK(TABLES, r)
    {
      RuleHolds(r);
    }
  }

  lemma ItemsHold()
    ensures ItemsOK(TABLES, CERTIFICATE)
  {
  }

  lemma RhsWeights(C: Certificate, a: Sym, b: Sym, c: Sym, d: Sym)
    ensures RhsWeight(C, []) == 0 && RhsWeight(C, [a]) == SymWeight(C, a)
    ensures RhsWeight(C, [a, b]) == SymWeight(C, a) + SymWeight(C, b)
    ensures RhsWeight(C, [a, b, c, d]) == SymWeight(C, a) + SymWeight(C, b) + SymWeight(C, c) + SymWeight(C, d)
  {
    assert [a][..0] == [] && [a, b][..1] == [a] && [a, b, c][..2] == [a, b] && [a, b, c, d][..3] == [a, b, c];
  }

  lemma GainsHold()
    ensures forall r :: 0 <= r < |TABLES.rules| ==> RuleGains(TABLES, CERTIFICATE, r)
  {
    hide RhsWeight;
    RhsWeights(CERTIFICATE, One(6), One(2), One(6), One(3));
    RhsWeights(CERTIFICATE, One(1), One(6), One(0), One(0));
    RhsWeights(CERTIFICATE, One(6), One(4), One(0), One(0));
  }

  lemma WeightsHold()
    ensures WeightsOK(TABLES, CERTIFICATE)
  {
    hide RuleGains;
    GainsHold();
  }

  lemma SemiMove()
    ensures MoveOK(TABLES, CERTIFICATE, 0, 1, 1)
  {
  }

  lemma LpMove(q: nat)
    requires q in {2, 3, 5}
    ensures MoveOK(TABLES, CERTIFICATE, q, 4, 2)
  {
  }

  lemma AnyMove(q: nat)
    requires q in {2, 3, 5}
    ensures MoveOK(TABLES, CERTIFICATE, q, 10, 4)
  {
  }

  lemma RpMove()
    ensures MoveOK(TABLES, CERTIFICATE, 5, 9, 3)
  {
  }

  lemma AnylistMoves()
    ensures MoveOK(TABLES, CERTIFICATE, 0, 2, 6) && MoveOK(TABLES, CERTIFICATE, 1, 3, 6)
    ensures MoveOK(TABLES, CERTIFICATE, 4, 5, 6)
  {
    hide Rhs, Matches;
    RuleSymbols();
  }

  lemma RuleSymbols()
    ensures Rhs(TABLES, 0) == [One(6)] && Rhs(TABLES, 1) == [One(1), One(6)] && Rhs(TABLES, 2) == []
    ensures Rhs(TABLES, 3) == [One(6), One(2), One(6), One(3)] && Rhs(TABLES, 4) == [One(6), One(4)]
    ensures Matches(One(6), 6)
  {
  }

  lemma Defaults(q: nat)
    requires q <= 5
    ensures DefaultOK(TABLES, CERTIFICATE, q, Default(TABLES, q))
  {
  }

  lemma ShiftsHold()
    ensures ShiftsOK(TABLES, CERTIFICATE)
  {
    hide MoveOK, ShiftEntry, DefaultOK;
    SemiMove();
    RpMove();
    forall q | q in {2, 3, 5}
      ensures MoveOK(TABLES, CERTIFICATE, q, 4, 2) && MoveOK(TABLES, CERTIFICATE, q, 10, 4)
    {
      LpMove(q);
      AnyMove(q);
    }
    forall q | 0 <= q <= TABLES.maxShift
      ensures DefaultOK(TABLES, CERTIFICATE, q, Default(TABLES, q))
    {
      Defaults(q);
    }
    forall q, x | 0 <= q <= TABLES.maxShift && 0 <= x < TABLES.nTerminal && ShiftEntry(TABLES, q, x).Some?
      ensures ShiftCellOK(TABLES, CERTIFICATE, q, x, ShiftEntry(TABLES, q, x).value)
    {
      Decode(q, x);
    }
  }

  lemma GotoCell(q: nat, a: nat)
    requires GotoEntry(TABLES, q, 6) == Some(a) && MoveOK(TABLES, CERTIFICATE, q, a, 6) && a <= 5
    ensures GotoCellOK(TABLES, CERTIFICATE, q, 6)
  {
    hide MoveOK, GotoEntry;
    assert StandsFor(TABLES, 6, [], 6);
  }

  lemma Starts(q: nat, i: Item)
    requires q <= 5 && i in ItemsAt(CERTIFICATE, q) && i.dot == 0
    ensures (q == 0 && Lhs(TABLES, i.rule) == 5) || (q in {0, 1, 4} && Lhs(TABLES, i.rule) == 6)
  {
  }

  lemma GotosHold()
    ensures GotosOK(TABLES, CERTIFICATE)
  {
    hide MoveOK, GotoEntry, GotoCellOK, ItemsAt;
    Gotos();
    AnylistMoves();
    GotoCell(0, 2);
    GotoCell(1, 3);
    GotoCell(4, 5);
    AcceptCell();
    forall q, i: Item | 0 <= q <= TABLES.maxShift && i in ItemsAt(CERTIFICATE, q) && i.dot == 0
      ensures GotoCellOK(TABLES, CERTIFICATE, q, Lhs(TABLES, i.rule))
    {
      Starts(q, i);
    }
  }

  lemma AcceptCell()
    ensures GotoCellOK(TABLES, CERTIFICATE, 0, 5)
  {
    hide GotoEntry;
    Gotos();
  }

  lemma NestingIsWellFormed()
    ensures WellFormed(TABLES, CERTIFICATE)
  {
    hide Layout, ItemsOK, ShiftsOK, GotosOK, WeightsOK;
    LayoutHolds();
    ItemsHold();
    ShiftsHold();
    GotosHold();
    WeightsHold();
  }

  // ----- every depth overflows on an empty rule -----

  /** The states in which a parenthesis calls for `anylist ::=` first. */
  predicate Opens(q: nat) { q in {0, 1, 4} }

  lemma EmptyFirst(q: nat)
    requires Opens(q)
    ensures ShiftAction(TABLES, q, 2) == 13
  {
    hide ShiftEntry, ShiftAction;
    Decode(q, 2);
    Decode(q, 4);
    Parser.ShiftActionCases(TABLES, q, 2);
  }

  lemma LpShifts(q: nat)
    requires q in {2, 3, 5}
    ensures ShiftAction(TABLES, q, 2) == 4
  {
    hide ShiftEntry, ShiftAction;
    Decode(q, 2);
    Parser.ShiftActionCases(TABLES, q, 2);
  }

  lemma SemiShifts()
    ensures ShiftAction(TABLES, 0, 1) == 1
  {
    hide ShiftEntry, ShiftAction;
    Decode(0, 1);
    Parser.ShiftActionCases(TABLES, 0, 1);
  }

  lemma Codes()
    ensures TABLES.MinReduce() == 11 && TABLES.ErrorAction() == 16
    ensures forall q :: q <= 5 ==> TABLES.Stored(q) == q
    ensures Rhs(TABLES, 2) == [] && Lhs(TABLES, 2) == 6
  {
  }

  /** Where `anylist` leads from such a state. */
  function After(q: nat): nat { if q == 0 then 2 else if q == 1 then 3 else 5 }

  function Anylist(q: nat): Entry { Entry(After(q), 6, Built(2, [])) }

  function Open(u: Token): Entry { Entry(4, 2, Leaf(u)) }

  lemma ReduceAnylist(limit: nat, cfg: Config)
    requires 1 <= limit && Opens(TopCode(cfg.stack)) && |cfg.stack| < limit
    ensures Rhs(TABLES, 2) == [] && Goto(TABLES, cfg.stack, 2).Some?
    ensures var e := Anylist(TopCode(cfg.stack));
      ReduceStep(TABLES, limit, cfg, 2) == Config(cfg.stack + [e], cfg.log + [Reduced(2, [], e)])
  {
    hide Rhs, Lhs, GotoEntry;
    Codes();
    Gotos();
    assert cfg.stack[|cfg.stack|..] == [] && cfg.stack[..|cfg.stack|] == cfg.stack;
    assert Minors([]) == [];
  }

  /** With room for both, a parenthesis pushes an empty `anylist` and itself. */
  lemma NestDeeper(limit: nat, cfg: Config, u: Token)
    requires Inv(TABLES, CERTIFICATE, limit, cfg.stack)
    requires Opens(TopCode(cfg.stack)) && |cfg.stack| + 2 <= limit
    ensures var e := Anylist(TopCode(cfg.stack));
      Feed(TABLES, CERTIFICATE, limit, cfg, 2, u)
      == Config(cfg.stack + [e] + [Open(u)], cfg.log + [Reduced(2, [], e)] + [Shifted(Open(u))])
  {
    hide Inv, WellFormed, ShiftAction, ReduceStep, Goto, Rhs, Lhs, Room, Opens;
    var q := TopCode(cfg.stack);
    var next := Config(cfg.stack + [Anylist(q)], cfg.log + [Reduced(2, [], Anylist(q))]);
    Codes();
    EmptyFirst(q);
    ReduceAnylist(limit, cfg);
    FeedUnfolds(TABLES, CERTIFICATE, limit, cfg, 2, u);
    LpShifts(After(q));
    assert TopCode(next.stack) == After(q);
    FeedUnfolds(TABLES, CERTIFICATE, limit, next, 2, u);
  }

  lemma ShiftSemi(limit: nat, u: Token)
    requires Inv(TABLES, CERTIFICATE, limit, []) && 1 <= limit
    ensures var s := Entry(1, 1, Leaf(u));
      Feed(TABLES, CERTIFICATE, limit, INITIAL, 1, u) == Config([s], [Shifted(s)])
  {
    hide Inv, WellFormed, ShiftAction, ReduceStep, Goto, Rhs, Lhs, Room;
    Codes();
    SemiShifts();
    FeedUnfolds(TABLES, CERTIFICATE, limit, INITIAL, 1, u);
  }

  /** n opening parentheses, after a semicolon if asked for. */
  function Input(semi: bool, n: nat, u: Token): (tokens: Theorems.Input)
    ensures Tokens(TABLES, tokens)
  {
    if n > 0 then Input(semi, n - 1, u) + [(2, u)] else if semi then [(1, u)] else []
  }

  function Depth(semi: bool, n: nat): nat { 2 * n + if semi then 1 else 0 }

  /** They fill the stack to a known depth, and nothing is dropped on the way. */
  lemma {:induction false} Fills(limit: nat, semi: bool, n: nat, u: Token)
    requires WellFormed(TABLES, CERTIFICATE) && 1 <= limit && Depth(semi, n) <= limit
    ensures var cfg := FreshRun(TABLES, CERTIFICATE, limit, Input(semi, n, u));
      && |cfg.stack| == Depth(semi, n) && Opens(TopCode(cfg.stack)) && DroppedIn(cfg.log) == multiset{}
      && (n > 0 ==> cfg.stack[|cfg.stack| - 1] == Open(u))
  {
    hide WellFormed, Inv, Feed, DroppedIn, Opens;
    InitialInv(TABLES, CERTIFICATE, limit);
    if n == 0 {
      FillsNothing(limit, semi, u);
    } else {
      var front, tokens := Input(semi, n - 1, u), Input(semi, n, u);
      assert tokens[..|tokens| - 1] == front && tokens[|tokens| - 1] == (2, u);
      Fills(limit, semi, n - 1, u);
      var cfg := FreshRun(TABLES, CERTIFICATE, limit, front);
      var e := Anylist(TopCode(cfg.stack));
      NestDeeper(limit, cfg, u);
      DroppedPush(cfg.log, Reduced(2, [], e));
      DroppedPush(cfg.log + [Reduced(2, [], e)], Shifted(Open(u)));
      OpenOpens(u);
    }
  }

  lemma OpenOpens(u: Token)
    ensures Opens(Open(u).stateno) && Opens(0) && Opens(1)
  {
  }

  lemma FillsNothing(limit: nat, semi: bool, u: Token)
    requires WellFormed(TABLES, CERTIFICATE) && 1 <= limit
    ensures var cfg := FreshRun(TABLES, CERTIFICATE, limit, Input(semi, 0, u));
      |cfg.stack| == Depth(semi, 0) && Opens(TopCode(cfg.stack)) && DroppedIn(cfg.log) == multiset{}
  {
    hide WellFormed, Inv, Feed, DroppedIn, Opens;
    InitialInv(TABLES, CERTIFICATE, limit);
    OpenOpens(u);
    NothingDropped();
    assert FreshRun(TABLES, CERTIFICATE, limit, []) == INITIAL;
    if semi {
      var tokens := Input(semi, 0, u);
      assert tokens[..|tokens| - 1] == [] && tokens[|tokens| - 1] == (1, u);
      ShiftSemi(limit, u);
      assert FreshRun(TABLES, CERTIFICATE, limit, tokens) == Feed(TABLES, CERTIFICATE, limit, INITIAL, 1, u);
      DroppedPush([], Shifted(Entry(1, 1, Leaf(u))));
    }
  }

  lemma NothingDropped()
    ensures DroppedIn([]) == multiset{}
  {
  }

  /** A full stack drops its top on the next parenthesis. */
  lemma FullDrops(limit: nat, cfg: Config, u: Token)
    requires Inv(TABLES, CERTIFICATE, limit, cfg.stack)
    requires Opens(TopCode(cfg.stack)) && |cfg.stack| == limit && DroppedIn(cfg.log) == multiset{}
    ensures cfg.stack != []
    ensures DroppedIn(Feed(TABLES, CERTIFICATE, limit, cfg, 2, u).log) == multiset{cfg.stack[|cfg.stack| - 1]}
  {
    hide WellFormed, Linked, ShiftAction, Rounds, Feed, DroppedIn, Rhs;
    Codes();
    EmptyFirst(TopCode(cfg.stack));
    CallDropsExactly(TABLES, CERTIFICATE, limit, cfg, 2, u);
    assert FullForEmptyRule(TABLES, limit, Rounds(TABLES, CERTIFICATE, limit, cfg, 2, u)[0].stack, 2);
  }

  /** For every depth of the stack, 99 included, there are well-formed tables and an input on
      which the parser drops an entry without destroying it: the parenthesis on top of a stack
      that is full when the next one calls for the empty rule. */
  lemma EveryDepthDrops(limit: nat, u: Token)
    requires 1 <= limit
    ensures WellFormed(TABLES, CERTIFICATE)
    ensures var tokens := Input(limit % 2 == 1, limit / 2 + 1, u);
      var dropped := DroppedIn(FreshRun(TABLES, CERTIFICATE, limit, tokens).log);
      |dropped| == 1 && (limit > 1 ==> dropped == multiset{Open(u)})
  {
    hide WellFormed, Inv, Feed, DroppedIn, Opens;
    NestingIsWellFormed();
    InitialInv(TABLES, CERTIFICATE, limit);
    var semi, n := limit % 2 == 1, limit / 2;
    var front, tokens := Input(semi, n, u), Input(semi, n + 1, u);
    assert tokens[..|tokens| - 1] == front && tokens[|tokens| - 1] == (2, u);
    Fills(limit, semi, n, u);
    FullDrops(limit, FreshRun(TABLES, CERTIFICATE, limit, front), u);
  }
}

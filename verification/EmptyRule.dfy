/** An overflow on an empty rule, on the tables of module Transactions and a stack with room for
    two entries: `BEGIN TRANSACTION` drops the entry of BEGIN without destroying it. */
module EmptyRule {
  import opened Wrappers
  import opened Tables
  import opened Machine
  import opened Driver
  import opened Theorems
  import opened Transactions
  import Parser

  const ROOM: nat := 2

  /** What the tables say along the way: `explain ::=` before BEGIN, then a shift to state 3,
      which calls for `transtype ::=` unless DEFERRED follows. */
  lemma ShiftLookups()
    ensures ShiftAction(TABLES, 0, 3) == 42 && ShiftAction(TABLES, 2, 3) == 3 && ShiftAction(TABLES, 3, 4) == 35
    ensures TABLES.MinReduce() == 32 && TABLES.ErrorAction() == 47
  {
    hide ShiftEntry, ShiftAction;
    Decode0(3);
    Decode0(6);
    Decode0(8);
    Decode2(3);
    Decode3(4);
    Decode3(8);
    Parser.ShiftActionCases(TABLES, 0, 3);
    Parser.ShiftActionCases(TABLES, 2, 3);
    Parser.ShiftActionCases(TABLES, 3, 4);
  }

  lemma RuleLookups()
    ensures Rhs(TABLES, 10) == [] && Lhs(TABLES, 10) == 12 && GotoEntry(TABLES, 0, 12) == Some(2)
    ensures Rhs(TABLES, 3) == [] && Lhs(TABLES, 3) == 15
    ensures TABLES.MinReduce() == 32 && TABLES.Stored(2) == 2 && TABLES.Stored(3) == 3
  {
  }

  function ExplainEntry(): Entry { Entry(2, 12, Built(10, [])) }

  function BeginEntry(t: Token): Entry { Entry(3, 3, Leaf(t)) }

  lemma ReduceExplain()
    ensures Goto(TABLES, [], 10) == Some(2)
    ensures var f := ExplainEntry();
      ReduceStep(TABLES, ROOM, INITIAL, 10) == Config([f], [Reduced(10, [], f)])
  {
    hide Rhs, Lhs, GotoEntry;
    RuleLookups();
    assert Minors([]) == [];
  }

  lemma ShiftBegin(t: Token)
    requires Inv(TABLES, CERTIFICATE, ROOM, [ExplainEntry()])
    ensures var f, b := ExplainEntry(), BeginEntry(t);
      Feed(TABLES, CERTIFICATE, ROOM, Config([f], [Reduced(10, [], f)]), 3, t)
      == Config([f, b], [Reduced(10, [], f), Shifted(b)])
  {
    hide Inv, WellFormed, ShiftAction, ReduceStep, Goto, Rhs, Lhs, Room;
    ShiftLookups();
    RuleLookups();
    FeedUnfolds(TABLES, CERTIFICATE, ROOM, Config([ExplainEntry()], [Reduced(10, [], ExplainEntry())]), 3, t);
  }

  lemma FeedBegin(t: Token)
    requires Inv(TABLES, CERTIFICATE, ROOM, [])
    ensures var f, b := ExplainEntry(), BeginEntry(t);
      Feed(TABLES, CERTIFICATE, ROOM, INITIAL, 3, t) == Config([f, b], [Reduced(10, [], f), Shifted(b)])
  {
    hide Inv, WellFormed, ShiftAction, ReduceStep, ShiftStep, Goto, Rhs, Lhs, Room, Feed;
    ShiftLookups();
    ReduceExplain();
    FeedUnfolds(TABLES, CERTIFICATE, ROOM, INITIAL, 3, t);
    ShiftBegin(t);
  }

  lemma FeedTransaction(t: Token, u: Token)
    requires Inv(TABLES, CERTIFICATE, ROOM, [ExplainEntry(), BeginEntry(t)])
    ensures var f, b := ExplainEntry(), BeginEntry(t);
      var before := [Reduced(10, [], f), Shifted(b)];
      && FullForEmptyRule(TABLES, ROOM, [f, b], 4)
      && Feed(TABLES, CERTIFICATE, ROOM, Config([f, b], before), 4, u)
         == Config([], before + [Dropped(b), Destroyed(f), Overflowed(true), Discarded(4, u)])
  {
    hide Inv, WellFormed, ShiftAction, Goto, Rhs, Lhs, Room;
    ShiftLookups();
    RuleLookups();
    var f, b := ExplainEntry(), BeginEntry(t);
    assert [f, b][..1] == [f] && [f][..0] == [];
    assert DestroyLog([f]) == [Destroyed(f)];
    FeedUnfolds(TABLES, CERTIFICATE, ROOM, Config([f, b], [Reduced(10, [], f), Shifted(b)]), 4, u);
  }

  /** Well-formed tables and an input that reach the exception: the second call drops the entry
      of BEGIN, which is neither consumed nor destroyed. */
  lemma BeginIsDropped(t: Token, u: Token)
    ensures WellFormed(TABLES, CERTIFICATE) && Inv(TABLES, CERTIFICATE, ROOM, INITIAL.stack)
    ensures
      var log := Feed(TABLES, CERTIFICATE, ROOM, Feed(TABLES, CERTIFICATE, ROOM, INITIAL, 3, t), 4, u).log;
      && log == [Reduced(10, [], ExplainEntry()), Shifted(BeginEntry(t)),
                 Dropped(BeginEntry(t)), Destroyed(ExplainEntry()), Overflowed(true), Discarded(4, u)]
  {
    hide WellFormed, Feed;
    TransactionsAreWellFormed();
    InitialInv(TABLES, CERTIFICATE, ROOM);
    FeedBegin(t);
    FeedTransaction(t, u);
  }
}

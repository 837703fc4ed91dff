/** A well-formed parser on which a pending reduction returns to the base by itself, so that the
    next token is lost: the rule `start ::= A` alone, whose A is shift-reduced. */
module PendingReturn {
  import opened Wrappers
  import opened Tables
  import opened Machine
  import opened Driver
  import opened Theorems
  import opened Refinement

  // Terminals: 0 $, 1 A, 2 ANY.  Nonterminal: 3 start.

  const TABLES: Tables := Tables(
    [1, 4], [1, 3], [-1], [-2], -3, [3], [0], [Rule(3, [One(1)], false)], 3, 4, 2, 3, 0, 1)

  const CERTIFICATE: Certificate := Certificate([{Item(0, 0)}], [AnyOf([])], [-1, -1, -1, 0], 1, 0)

  lemma Decode(x: nat)
    ensures ShiftEntry(TABLES, 0, x) == if x == 1 then Some(1) else None
    ensures GotoEntry(TABLES, 0, 3) == Some(4)
  {
  }

  lemma GainHolds()
    ensures RuleGains(TABLES, CERTIFICATE, 0)
  {
    assert [One(1)][..0] == [];
  }

  lemma MoveHolds()
    ensures MoveOK(TABLES, CERTIFICATE, 0, 1, 1)
  {
  }

  lemma TablesAreWellFormed()
    ensures WellFormed(TABLES, CERTIFICATE)
  {
    hide ShiftEntry, GotoEntry, RuleGains, MoveOK;
    GainHolds();
    MoveHolds();
    forall x: nat
      ensures ShiftEntry(TABLES, 0, x) == if x == 1 then Some(1) else None
    {
      Decode(x);
    }
    Decode(0);
  }

  lemma StartIsShiftReduced()
    ensures !Quiet(TABLES)
  {
    assert TABLES.IsShiftReduce(TABLES.action[0]);
  }

  const LIMIT: nat := 99

  /** Two tokens A are fed.  The driver accepts the first during the second call and loses the
      second; the plain automaton accepts the first in its own call and goes on to shift and
      accept the second. */
  lemma SecondTokenIsLost(t: Token, u: Token)
    ensures WellFormed(TABLES, CERTIFICATE) && !Quiet(TABLES) && Tokens(TABLES, [(1, t), (1, u)])
    ensures var e := Entry(2, 1, Leaf(t));
      FreshRun(TABLES, CERTIFICATE, LIMIT, [(1, t), (1, u)])
      == Config([], [Shifted(e), Accepted(0, [e]), Discarded(1, u)])
    ensures Settle(TABLES, CERTIFICATE, LIMIT, FreshRun(TABLES, CERTIFICATE, LIMIT, [(1, t), (1, u)]))
         != PlainRun(TABLES, CERTIFICATE, LIMIT, [(1, t), (1, u)])
  {
    hide WellFormed, Quiet, Feed, PlainFeed, Settle, Inv, PlainRun, FreshRun;
    TablesAreWellFormed();
    StartIsShiftReduced();
    var e := Entry(2, 1, Leaf(t));
    ShortRuns(TABLES, CERTIFICATE, LIMIT, 1, t, 1, u);
    FirstCall(t);
    SecondCall(t, u);
    PendingSettles(t);
    PendingRefinesExactly(TABLES, CERTIFICATE, LIMIT, Config([e], [Shifted(e)]), 1, u);
  }

  lemma FirstCall(t: Token)
    requires Inv(TABLES, CERTIFICATE, LIMIT, [])
    ensures var e := Entry(2, 1, Leaf(t));
      Feed(TABLES, CERTIFICATE, LIMIT, INITIAL, 1, t) == Config([e], [Shifted(e)])
  {
    hide WellFormed, Inv, ShiftEntry;
    Decode(1);
    FeedUnfolds(TABLES, CERTIFICATE, LIMIT, INITIAL, 1, t);
  }

  lemma Accepts(t: Token)
    ensures var e := Entry(2, 1, Leaf(t));
      && Goto(TABLES, [e], 0) == Some(4)
      && ReduceStep(TABLES, LIMIT, Config([e], [Shifted(e)]), 0) == Config([], [Shifted(e), Accepted(0, [e])])
  {
    Decode(0);
    var e := Entry(2, 1, Leaf(t));
    assert [e][0..] == [e] && [e][..0] == [];
  }

  lemma SecondCall(t: Token, u: Token)
    requires Inv(TABLES, CERTIFICATE, LIMIT, [Entry(2, 1, Leaf(t))])
    ensures var e := Entry(2, 1, Leaf(t));
      Feed(TABLES, CERTIFICATE, LIMIT, Config([e], [Shifted(e)]), 1, u)
      == Config([], [Shifted(e), Accepted(0, [e]), Discarded(1, u)])
  {
    hide WellFormed, Inv, ShiftEntry, ReduceStep, Goto;
    var e := Entry(2, 1, Leaf(t));
    Accepts(t);
    FeedUnfolds(TABLES, CERTIFICATE, LIMIT, Config([e], [Shifted(e)]), 1, u);
  }

  lemma PendingSettles(t: Token)
    requires Inv(TABLES, CERTIFICATE, LIMIT, [Entry(2, 1, Leaf(t))])
    ensures var e := Entry(2, 1, Leaf(t));
      Settle(TABLES, CERTIFICATE, LIMIT, Config([e], [Shifted(e)])) == Config([], [Shifted(e), Accepted(0, [e])])
  {
    hide WellFormed, Inv, ReduceStep, Goto;
    var e := Entry(2, 1, Leaf(t));
    Accepts(t);
    SettleStep(TABLES, CERTIFICATE, LIMIT, Config([e], [Shifted(e)]));
  }
}

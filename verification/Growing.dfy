/** The build whose stack is allocated dynamically and doubles when it is full. */
module Growing {
  import opened Tables
  import opened Machine
  import opened Driver
  import opened Theorems
  import opened Refinement
  import opened Parser
  import opened Depth

  class GrowingParser {
    const T: Tables
    ghost const C: Certificate
    var yystack: array<Entry>
    var yytos: nat
    ghost var log: seq<Event>

    ghost predicate Shape()
      reads this, yystack
    {
      && yytos < yystack.Length
      && yystack[0].stateno == 0
      && Layout(T)
    }

    ghost function Stack(): seq<Entry>
      requires yytos < yystack.Length
      reads this, yystack
    {
      yystack[1..yytos + 1]
    }

    ghost function Cfg(): Config
      requires yytos < yystack.Length
      reads this, yystack
    {
      Config(Stack(), log)
    }

    constructor Alloc(T: Tables, ghost C: Certificate)
      requires Layout(T)
      ensures Shape() && Cfg() == INITIAL && fresh(yystack)
      ensures this.T == T && this.C == C
    {
      this.T := T;
      this.C := C;
      yystack := new Entry[100];
      yytos := 0;
      log := [];
      new;
      yystack[0] := yystack[0].(stateno := 0, major := 0);
    }

    /** Move to a stack of twice the size plus 100.  Every entry and the top index survive. */
    method Grow()
      requires yytos <= yystack.Length
      modifies this`yystack
      ensures fresh(yystack) && yystack.Length == 2 * old(yystack.Length) + 100
      ensures yystack[..old(yystack.Length)] == old(yystack[..])
    {
      var pOld := yystack;
      var pNew := new Entry[2 * pOld.Length + 100];
      for i := 0 to pOld.Length
        invariant yystack == pOld && pNew[..i] == pOld[..i] && pOld[..] == old(yystack[..])
      {
        pNew[i] := pOld[i];
      }
      yystack := pNew;
    }

    /** Push a token, making room first when there is none. */
    method Shift(newState: nat, major: nat, minor: Token, ghost limit: nat)
      requires Shape() && |Stack()| < limit
      modifies this, yystack
      ensures Shape() && (yystack == old(yystack) || fresh(yystack))
      ensures Cfg() == ShiftStep(T, limit, old(Cfg()), newState, major, minor)
    {
      hide Layout;
      ghost var s := Stack();
      yytos := yytos + 1;
      if yytos >= yystack.Length {
        Grow();
      }
      assert yystack[1..yytos] == s && yystack[0].stateno == 0;
      var code := newState;
      if code > T.maxShift {
        code := code + T.MinReduce() - T.minShiftReduce;
      }
      yystack[yytos] := Entry(code, major, Leaf(minor));
      log := log + [Shifted(yystack[yytos])];
      assert Stack() == s + [yystack[yytos]];
    }

    /** Reduce, making room first for the left side of an empty rule. */
    method Reduce(ruleno: nat, ghost limit: nat)
      requires Shape() && ruleno < |T.rules| && 1 <= limit
      requires |Rhs(T, ruleno)| > 0 || |Stack()| < limit
      requires |Rhs(T, ruleno)| <= yytos && Goto(T, Stack(), ruleno).Some?
      modifies this, yystack
      ensures Shape() && (yystack == old(yystack) || fresh(yystack))
      ensures Cfg() == ReduceStep(T, limit, old(Cfg()), ruleno)
    {
      hide Layout, ReduceStep, Goto;
      ghost var s := Stack();
      if |T.rules[ruleno].rhs| == 0 && yytos >= yystack.Length - 1 {
        Grow();
      }
      assert Stack() == s && yystack[0].stateno == 0;
      FinishReduce(ruleno, limit);
    }

    method FinishReduce(ruleno: nat, ghost limit: nat)
      requires Shape() && ruleno < |T.rules| && 1 <= limit
      requires |Rhs(T, ruleno)| > 0 || (|Stack()| < limit && yytos + 1 < yystack.Length)
      requires |Rhs(T, ruleno)| <= yytos && Goto(T, Stack(), ruleno).Some?
      modifies this`yytos, this`log, yystack
      ensures Shape() && Cfg() == ReduceStep(T, limit, old(Cfg()), ruleno)
    {
      hide Layout, Minors;
      ghost var s := Stack();
      var below := yytos - |T.rules[ruleno].rhs|;
      var rhs := yystack[below + 1..yytos + 1];
      assert rhs == s[below..] && yystack[below].stateno == StateAt(s, below);
      var yygoto := T.rules[ruleno].lhs;
      var yyact := FindReduceAction(T, yystack[below].stateno, yygoto);
      if yyact < T.MinReduce() {
        if yyact > T.maxShift {
          yyact := yyact + T.MinReduce() - T.minShiftReduce;
        }
        var e := Entry(yyact, yygoto, Built(ruleno, Minors(rhs)));
        assert e == LhsEntry(T, s, ruleno);
        ReplaceTop(below, e);
        log := log + [Reduced(ruleno, rhs, e)];
      } else {
        assert s[..below] == yystack[1..below + 1];
        yytos := below;
        log := log + [Accepted(ruleno, rhs)];
        assert Cfg() == Config(s[..below], old(log) + [Accepted(ruleno, s[below..])]);
      }
    }

    method ReplaceTop(below: nat, e: Entry)
      requires Shape() && below <= yytos && below + 1 < yystack.Length
      modifies this`yytos, yystack
      ensures Shape() && Stack() == old(Stack())[..below] + [e]
    {
      hide Layout;
      yytos := below + 1;
      yystack[yytos] := e;
    }

    /** As long as a fixed stack of `limit` entries would not overflow on this token, the
        growing stack ends the call exactly as that one does. */
    method Parse(major: nat, minor: Token, ghost limit: nat)
      requires Shape() && Inv(T, C, limit, Stack()) && major < T.nTerminal
      requires Overflows(Feed(T, C, limit, Cfg(), major, minor).log) == Overflows(log)
      modifies this, yystack
      ensures Shape() && (yystack == old(yystack) || fresh(yystack))
      ensures Inv(T, C, limit, Stack()) && Cfg() == Feed(T, C, limit, old(Cfg()), major, minor)
    {
      hide Layout, Inv, Room, Feed, Overflows;
      ghost var result := Feed(T, C, limit, Cfg(), major, minor);
      var again := Round(major, minor, limit);
      while again
        invariant Shape() && Inv(T, C, limit, Stack()) && (yystack == old(yystack) || fresh(yystack))
        invariant if again then Feed(T, C, limit, Cfg(), major, minor) == result else Cfg() == result
        invariant Overflows(result.log) == Overflows(log)
        invariant again ==> 0 <= Room(C, limit, Stack())
        decreases again, Room(C, limit, Stack())
      {
        again := Round(major, minor, limit);
      }
    }

    /** A whole input on a new parser: the run of a fixed stack of any size that does not
        overflow on it. */
    method ParseAll(tokens: Input, ghost limit: nat)
      requires Shape() && Cfg() == INITIAL
      requires WellFormed(T, C) && 1 <= limit && Tokens(T, tokens)
      requires Overflows(FreshRun(T, C, limit, tokens).log) == 0
      modifies this, yystack
      ensures Shape() && Cfg() == FreshRun(T, C, limit, tokens)
    {
      hide Feed, WellFormed, Layout, Inv, Overflows;
      InitialInv(T, C, limit);
      for i := 0 to |tokens|
        invariant Shape() && (yystack == old(yystack) || fresh(yystack))
        invariant Inv(T, C, limit, Stack()) && Cfg() == FreshRun(T, C, limit, tokens[..i])
      {
        assert tokens[..i + 1][..i] == tokens[..i];
        PrefixHasNotOverflowed(T, C, limit, tokens, i);
        PrefixHasNotOverflowed(T, C, limit, tokens, i + 1);
        Parse(tokens[i].0, tokens[i].1, limit);
      }
      assert tokens[..|tokens|] == tokens;
    }

    /** Any input on a new parser, for tables on which the stack grows no faster than the input. */
    method ParseAny(tokens: Input, ghost D: DepthCertificate)
      requires Shape() && Cfg() == INITIAL
      requires WellFormed(T, C) && Bounded(T, C, D) && Tokens(T, tokens)
      modifies this, yystack
      ensures Shape() && Cfg() == FreshRun(T, C, Enough(D, |tokens|), tokens)
      ensures forall limit :: limit >= Enough(D, |tokens|) ==> Cfg() == FreshRun(T, C, limit, tokens)
      ensures Overflows(log) == 0
    {
      hide WellFormed, Bounded, Overflows, FreshRun, Layout;
      ghost var least := Enough(D, |tokens|);
      EveryInputFits(T, C, D, least, tokens);
      ParseAll(tokens, least);
      forall limit | limit >= least
        ensures FreshRun(T, C, limit, tokens) == FreshRun(T, C, least, tokens)
      {
        EveryInputFits(T, C, D, limit, tokens);
      }
    }

    method Round(major: nat, minor: Token, ghost limit: nat) returns (again: bool)
      requires Shape() && Inv(T, C, limit, Stack()) && major < T.nTerminal
      requires Overflows(Feed(T, C, limit, Cfg(), major, minor).log) == Overflows(log)
      modifies this, yystack
      ensures Shape() && Inv(T, C, limit, Stack()) && (yystack == old(yystack) || fresh(yystack))
      ensures Overflows(log) == Overflows(old(log))
      ensures var result := Feed(T, C, limit, old(Cfg()), major, minor);
        if again then
          && Feed(T, C, limit, Cfg(), major, minor) == result
          && 0 <= Room(C, limit, Stack()) < old(Room(C, limit, Stack()))
        else Cfg() == result
    {
      hide Layout, Inv, Room, Ready, Edge, ShiftAction, ShiftStep, ReduceStep, Overflows, WellFormed;
      ghost var cfg := Cfg();
      FeedUnfolds(T, C, limit, cfg, major, minor);
      NoOverflowAhead(T, C, limit, cfg, major, minor);
      SettleStep(T, C, limit, cfg);
      var yyact, _ := FindShiftAction(T, yystack[yytos].stateno, major);
      if yyact < T.MinReduce() {
        Shift(yyact, major, minor, limit);
        again := false;
      } else if yyact < T.ErrorAction() {
        Reduce(yyact - T.MinReduce(), limit);
        again := yytos > 0;
        if again {
          FeedUnfolds(T, C, limit, Cfg(), major, minor);
        } else {
          OverflowsPush(log, Discarded(major, minor));
          log := log + [Discarded(major, minor)];
        }
      } else {
        OverflowsPush(log, Rejected(major, minor));
        log := log + [Rejected(major, minor)];
        again := false;
      }
    }
  }

  lemma {:induction false} PrefixHasNotOverflowed(T: Tables, C: Certificate, limit: nat, tokens: Input, n: nat)
    requires WellFormed(T, C) && 1 <= limit && Tokens(T, tokens) && n <= |tokens|
    requires Overflows(FreshRun(T, C, limit, tokens).log) == 0
    ensures Overflows(FreshRun(T, C, limit, tokens[..n]).log) == 0
    decreases |tokens|
  {
    hide WellFormed, Inv, Feed, Overflows;
    InitialInv(T, C, limit);
    if n == |tokens| {
      assert tokens[..n] == tokens;
    } else {
      var front, last := tokens[..|tokens| - 1], tokens[|tokens| - 1];
      DeeperStackAgrees(T, C, limit, limit, FreshRun(T, C, limit, front), last.0, last.1);
      PrefixHasNotOverflowed(T, C, limit, front, n);
      assert front[..n] == tokens[..n];
    }
  }

  /** A call that is not going to overflow does not overflow in its next step. */
  lemma NoOverflowAhead(T: Tables, C: Certificate, limit: nat, cfg: Config, major: nat, token: Token)
    requires Inv(T, C, limit, cfg.stack) && major < T.nTerminal
    requires Overflows(Feed(T, C, limit, cfg, major, token).log) == Overflows(cfg.log)
    ensures var a := ShiftAction(T, TopCode(cfg.stack), major);
      && (a < T.MinReduce() ==>
            var next := ShiftStep(T, limit, cfg, a, major, token);
            |cfg.stack| < limit && next.stack != [] && Overflows(next.log) == Overflows(cfg.log))
      && (T.IsReduce(a) ==>
            var r := a - T.MinReduce();
            && 1 <= limit && |Rhs(T, r)| <= |cfg.stack| && Goto(T, cfg.stack, r).Some?
            && (|Rhs(T, r)| > 0 || |cfg.stack| < limit)
            && Overflows(ReduceStep(T, limit, cfg, r).log) == Overflows(cfg.log))
  {
    hide Inv, Room, Ready, Edge, ShiftAction, ShiftStep, ReduceStep, Overflows, Goto;
    FeedUnfolds(T, C, limit, cfg, major, token);
    var a := ShiftAction(T, TopCode(cfg.stack), major);
    if a < T.MinReduce() {
      var next := ShiftStep(T, limit, cfg, a, major, token);
      ShiftOverflows(T, limit, cfg, a, major, token);
      OverflowsPush(next.log, Discarded(major, token));
    } else if T.IsReduce(a) {
      var next := ReduceStep(T, limit, cfg, a - T.MinReduce());
      ReduceOverflows(T, limit, cfg, a - T.MinReduce());
      OverflowsPush(next.log, Discarded(major, token));
      if next.stack != [] {
        DeeperStackAgrees(T, C, limit, limit, next, major, token);
      }
    }
  }
}

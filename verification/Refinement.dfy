/** The driver compared with other machines: with itself started afresh, with a deeper stack,
    and with the plain automaton that never keeps a pending reduction on its stack. */
module Refinement {
  import opened Tables
  import opened Machine
  import opened Driver
  import opened History
  import opened Runs
  import opened Theorems

  // ----- restart -----

  lemma {:induction false} FeedIgnoresLog(T: Tables, C: Certificate, limit: nat, pre: seq<Event>, cfg: Config,
                                          major: nat, token: Token)
    requires Inv(T, C, limit, cfg.stack) && major < T.nTerminal
    ensures var r := Feed(T, C, limit, cfg, major, token);
      Feed(T, C, limit, Config(cfg.stack, pre + cfg.log), major, token) == Config(r.stack, pre + r.log)
    decreases Room(C, limit, cfg.stack)
  {
    hide Inv, Room, Ready, Edge, ShiftAction, ReduceStep, ShiftStep;
    var shifted := Config(cfg.stack, pre + cfg.log);
    FeedUnfolds(T, C, limit, cfg, major, token);
    FeedUnfolds(T, C, limit, shifted, major, token);
    var a := ShiftAction(T, TopCode(cfg.stack), major);
    if a < T.MinReduce() {
      ShiftIgnoresLog(T, limit, pre, cfg, a, major, token);
    } else if a < T.ErrorAction() {
      var r := a - T.MinReduce();
      ReduceIgnoresLog(T, limit, pre, cfg, r);
      var next := ReduceStep(T, limit, cfg, r);
      if next.stack != [] {
        FeedUnfolds(T, C, limit, next, major, token);
        FeedIgnoresLog(T, C, limit, pre, next, major, token);
      } else {
        NoteAssoc(pre, next.log, Discarded(major, token));
      }
    } else {
      NoteAssoc(pre, cfg.log, Rejected(major, token));
    }
  }

  lemma NoteAssoc(pre: seq<Event>, log: seq<Event>, ev: Event)
    ensures pre + log + [ev] == pre + (log + [ev])
  {
  }

  lemma ShiftIgnoresLog(T: Tables, limit: nat, pre: seq<Event>, cfg: Config, a: nat, major: nat, token: Token)
    ensures var r := ShiftStep(T, limit, cfg, a, major, token);
      && ShiftStep(T, limit, Config(cfg.stack, pre + cfg.log), a, major, token) == Config(r.stack, pre + r.log)
      && pre + r.log + [Discarded(major, token)] == pre + (r.log + [Discarded(major, token)])
  {
    hide DestroyLog;
    if |cfg.stack| >= limit {
      assert pre + cfg.log + DestroyLog(cfg.stack) + [Overflowed(false)]
          == pre + (cfg.log + DestroyLog(cfg.stack) + [Overflowed(false)]);
    } else {
      NoteAssoc(pre, cfg.log, Shifted(Entry(T.Stored(a), major, Leaf(token))));
    }
  }

  lemma ReduceIgnoresLog(T: Tables, limit: nat, pre: seq<Event>, cfg: Config, r: nat)
    requires 1 <= limit && |Rhs(T, r)| <= |cfg.stack| && Goto(T, cfg.stack, r).Some?
    ensures var n := ReduceStep(T, limit, cfg, r);
      ReduceStep(T, limit, Config(cfg.stack, pre + cfg.log), r) == Config(n.stack, pre + n.log)
  {
    hide DestroyLog, LhsEntry;
    var keep := |cfg.stack| - |Rhs(T, r)|;
    if |Rhs(T, r)| == 0 && |cfg.stack| >= limit {
      var top := |cfg.stack| - 1;
      var d, rest := [Dropped(cfg.stack[top])], DestroyLog(cfg.stack[..top]);
      assert pre + cfg.log + d + rest + [Overflowed(true)] == pre + (cfg.log + d + rest + [Overflowed(true)]);
    } else if Goto(T, cfg.stack, r).value < T.MinReduce() {
      NoteAssoc(pre, cfg.log, Reduced(r, cfg.stack[keep..], LhsEntry(T, cfg.stack, r)));
    } else {
      NoteAssoc(pre, cfg.log, Accepted(r, cfg.stack[keep..]));
    }
  }

  /** A parser whose stack is back at its base, by accepting or by overflowing, behaves from
      then on exactly like a fresh one. */
  lemma {:induction false} RestartIsFresh(T: Tables, C: Certificate, limit: nat, cfg: Config, tokens: Input)
    requires WellFormed(T, C) && 1 <= limit && Tokens(T, tokens) && cfg.stack == []
    ensures Inv(T, C, limit, cfg.stack)
    ensures var anew := FreshRun(T, C, limit, tokens);
      Run(T, C, limit, cfg, tokens) == Config(anew.stack, cfg.log + anew.log)
    decreases |tokens|
  {
    hide WellFormed, Inv;
    InitialInv(T, C, limit);
    if tokens == [] {
      assert cfg.log + [] == cfg.log;
    } else {
      var front, last := tokens[..|tokens| - 1], tokens[|tokens| - 1];
      RestartIsFresh(T, C, limit, cfg, front);
      FeedIgnoresLog(T, C, limit, cfg.log, FreshRun(T, C, limit, front), last.0, last.1);
    }
  }

  // ----- overflow and depth -----

  function Overflows(log: seq<Event>): nat {
    if log == [] then 0
    else Overflows(log[..|log| - 1]) + if log[|log| - 1].Overflowed? then 1 else 0
  }

  lemma OverflowsPush(log: seq<Event>, ev: Event)
    ensures Overflows(log + [ev]) == Overflows(log) + if ev.Overflowed? then 1 else 0
  {
    LogPush(log, ev);
  }

  lemma {:induction false} DestroyingIsNoOverflow(log: seq<Event>, stack: seq<Entry>)
    ensures Overflows(log + DestroyLog(stack)) == Overflows(log)
    decreases |stack|
  {
    hide Overflows;
    if stack == [] {
      assert log + DestroyLog(stack) == log;
    } else {
      var ev := Destroyed(stack[|stack| - 1]);
      OverflowsPush(log, ev);
      DestroyingIsNoOverflow(log + [ev], stack[..|stack| - 1]);
      DestroyLogStep(log, stack);
    }
  }

  lemma ShiftOverflows(T: Tables, limit: nat, cfg: Config, a: nat, major: nat, token: Token)
    ensures var n := ShiftStep(T, limit, cfg, a, major, token);
      if |cfg.stack| >= limit
      then n.stack == [] && Overflows(n.log) == Overflows(cfg.log) + 1 && EndsIn(n.log, Overflowed(false))
      else n.stack != [] && Overflows(n.log) == Overflows(cfg.log)
  {
    hide Overflows, DestroyLog;
    if |cfg.stack| >= limit {
      DestroyingIsNoOverflow(cfg.log, cfg.stack);
      OverflowsPush(cfg.log + DestroyLog(cfg.stack), Overflowed(false));
    } else {
      OverflowsPush(cfg.log, Shifted(Entry(T.Stored(a), major, Leaf(token))));
    }
  }

  predicate EndsIn(log: seq<Event>, ev: Event) {
    log != [] && log[|log| - 1] == ev
  }

  lemma ReduceOverflows(T: Tables, limit: nat, cfg: Config, r: nat)
    requires 1 <= limit && |Rhs(T, r)| <= |cfg.stack| && Goto(T, cfg.stack, r).Some?
    ensures var n := ReduceStep(T, limit, cfg, r);
      if |Rhs(T, r)| == 0 && |cfg.stack| >= limit
      then n.stack == [] && Overflows(n.log) == Overflows(cfg.log) + 1 && EndsIn(n.log, Overflowed(true))
      else Overflows(n.log) == Overflows(cfg.log)
  {
    hide Overflows, DestroyLog, LhsEntry;
    var keep := |cfg.stack| - |Rhs(T, r)|;
    if |Rhs(T, r)| == 0 && |cfg.stack| >= limit {
      var top := |cfg.stack| - 1;
      OverflowsPush(cfg.log, Dropped(cfg.stack[top]));
      DestroyingIsNoOverflow(cfg.log + [Dropped(cfg.stack[top])], cfg.stack[..top]);
      OverflowsPush(cfg.log + [Dropped(cfg.stack[top])] + DestroyLog(cfg.stack[..top]), Overflowed(true));
    } else if Goto(T, cfg.stack, r).value < T.MinReduce() {
      OverflowsPush(cfg.log, Reduced(r, cfg.stack[keep..], LhsEntry(T, cfg.stack, r)));
    } else {
      OverflowsPush(cfg.log, Accepted(r, cfg.stack[keep..]));
    }
  }

  /** A call overflows at most once, and then it ends at the base with the overflow followed
      only by the loss of its token.  A call that does not overflow goes exactly the same way
      with any deeper stack. */
  lemma {:induction false} DeeperStackAgrees(T: Tables, C: Certificate, limit: nat, deeper: nat, cfg: Config,
                                             major: nat, token: Token)
    requires Inv(T, C, limit, cfg.stack) && major < T.nTerminal && limit <= deeper
    ensures Inv(T, C, deeper, cfg.stack)
    ensures var r := Feed(T, C, limit, cfg, major, token);
      if Overflows(r.log) == Overflows(cfg.log)
      then Feed(T, C, deeper, cfg, major, token) == r
      else && Overflows(r.log) == Overflows(cfg.log) + 1
           && r.stack == []
           && EndsIn(r.log, Discarded(major, token))
           && r.log[..|r.log| - 1] != [] && r.log[|r.log| - 2].Overflowed?
    decreases Room(C, limit, cfg.stack)
  {
    hide WellFormed, Linked, Room, Ready, Edge, ShiftAction, ReduceStep, ShiftStep, Overflows;
    FeedUnfolds(T, C, limit, cfg, major, token);
    FeedUnfolds(T, C, deeper, cfg, major, token);
    var a := ShiftAction(T, TopCode(cfg.stack), major);
    if a < T.MinReduce() {
      ShiftOverflows(T, limit, cfg, a, major, token);
      ShiftDeeper(T, limit, deeper, cfg, a, major, token);
      OverflowsPush(ShiftStep(T, limit, cfg, a, major, token).log, Discarded(major, token));
    } else if a < T.ErrorAction() {
      var r := a - T.MinReduce();
      ReduceOverflows(T, limit, cfg, r);
      ReduceDeeper(T, limit, deeper, cfg, r);
      var next := ReduceStep(T, limit, cfg, r);
      if next.stack != [] {
        FeedUnfolds(T, C, limit, next, major, token);
        DeeperStackAgrees(T, C, limit, deeper, next, major, token);
      } else {
        OverflowsPush(next.log, Discarded(major, token));
      }
    } else {
      OverflowsPush(cfg.log, Rejected(major, token));
    }
  }

  lemma ShiftDeeper(T: Tables, limit: nat, deeper: nat, cfg: Config, a: nat, major: nat, token: Token)
    requires limit <= deeper
    ensures |cfg.stack| < limit ==>
      ShiftStep(T, deeper, cfg, a, major, token) == ShiftStep(T, limit, cfg, a, major, token)
  {
  }

  lemma ReduceDeeper(T: Tables, limit: nat, deeper: nat, cfg: Config, r: nat)
    requires 1 <= limit <= deeper && |Rhs(T, r)| <= |cfg.stack| && Goto(T, cfg.stack, r).Some?
    ensures (|Rhs(T, r)| == 0 && |cfg.stack| >= limit) || ReduceStep(T, deeper, cfg, r) == ReduceStep(T, limit, cfg, r)
  {
  }

  /** As long as the fixed stack has not overflowed, a deeper one has done exactly the same. */
  lemma {:induction false} DeeperRunAgrees(T: Tables, C: Certificate, limit: nat, deeper: nat, tokens: Input)
    requires WellFormed(T, C) && 1 <= limit <= deeper && Tokens(T, tokens)
    ensures Overflows(FreshRun(T, C, limit, tokens).log) == 0 ==>
      FreshRun(T, C, deeper, tokens) == FreshRun(T, C, limit, tokens)
    decreases |tokens|
  {
    hide WellFormed, Inv, Overflows;
    InitialInv(T, C, limit);
    InitialInv(T, C, deeper);
    if tokens != [] {
      var front, last := tokens[..|tokens| - 1], tokens[|tokens| - 1];
      DeeperRunAgrees(T, C, limit, deeper, front);
      DeeperStackAgrees(T, C, limit, deeper, FreshRun(T, C, limit, front), last.0, last.1);
    }
  }

  // ----- the plain automaton -----

  /** Fire pending reductions until the top entry holds a state. */
  function Settle(T: Tables, C: Certificate, limit: nat, cfg: Config): (cfg': Config)
    requires Inv(T, C, limit, cfg.stack)
    ensures Inv(T, C, limit, cfg'.stack) && T.IsState(TopCode(cfg'.stack))
    decreases Room(C, limit, cfg.stack)
  {
    hide Inv, Room, Ready, ReduceStep;
    SettleStep(T, C, limit, cfg);
    if T.IsReduce(TopCode(cfg.stack)) then
      var next := ReduceStep(T, limit, cfg, TopCode(cfg.stack) - T.MinReduce());
      if next.stack == [] then next else Settle(T, C, limit, next)
    else cfg
  }

  lemma SettleStep(T: Tables, C: Certificate, limit: nat, cfg: Config)
    requires Inv(T, C, limit, cfg.stack)
    ensures T.IsState(TopCode(cfg.stack)) || T.IsReduce(TopCode(cfg.stack))
    ensures T.IsState(0) && 0 <= Room(C, limit, cfg.stack)
    ensures T.IsReduce(TopCode(cfg.stack)) ==>
      var r := TopCode(cfg.stack) - T.MinReduce();
      && Ready(T, C, cfg.stack, r)
      && 1 <= limit && |Rhs(T, r)| <= |cfg.stack| && Goto(T, cfg.stack, r).Some?
      && var next := ReduceStep(T, limit, cfg, r);
      && Inv(T, C, limit, next.stack)
      && (next.stack != [] ==> 0 <= Room(C, limit, next.stack) < Room(C, limit, cfg.stack))
  {
    hide ItemsOK, ShiftsOK, GotosOK, WeightsOK, Ready, Linked, ReduceStep;
    OnlyBaseIsZero(T, C, cfg.stack, |cfg.stack|);
    WeightBound(T, C, cfg.stack, limit);
    if T.IsReduce(TopCode(cfg.stack)) {
      var r := TopCode(cfg.stack) - T.MinReduce();
      PendingIsReady(T, C, cfg.stack);
      ReduceKeepsInv(T, C, limit, cfg, r);
      WeightBound(T, C, ReduceStep(T, limit, cfg, r).stack, limit);
    }
  }

  /** One call of the plain automaton.  A shift-reduce action shifts to the state that holds
      only the finished rule and reduces by it at once; so does a goto. */
  function PlainFeed(T: Tables, C: Certificate, limit: nat, cfg: Config, major: nat, token: Token): (cfg': Config)
    requires Inv(T, C, limit, cfg.stack) && T.IsState(TopCode(cfg.stack)) && major < T.nTerminal
    ensures Inv(T, C, limit, cfg'.stack) && T.IsState(TopCode(cfg'.stack))
    decreases Room(C, limit, cfg.stack)
  {
    hide Inv, Room, Ready, Edge, ReduceStep, ShiftStep, ShiftAction;
    FeedUnfolds(T, C, limit, cfg, major, token);
    var a := ShiftAction(T, TopCode(cfg.stack), major);
    if a < T.MinReduce() then
      var next := ShiftStep(T, limit, cfg, a, major, token);
      if next.stack == [] then Note(next, Discarded(major, token)) else Settle(T, C, limit, next)
    else if a < T.ErrorAction() then
      var next := ReduceStep(T, limit, cfg, a - T.MinReduce());
      SettleGains(T, C, limit, next);
      var settled := Settle(T, C, limit, next);
      if settled.stack == [] then Note(settled, Discarded(major, token))
      else PlainFeed(T, C, limit, settled, major, token)
    else
      Note(cfg, Rejected(major, token))
  }

  lemma {:induction false} SettleGains(T: Tables, C: Certificate, limit: nat, cfg: Config)
    requires Inv(T, C, limit, cfg.stack)
    ensures cfg.stack == [] ==> Settle(T, C, limit, cfg) == cfg
    ensures Settle(T, C, limit, cfg).stack != [] ==>
      0 <= Room(C, limit, Settle(T, C, limit, cfg).stack) <= Room(C, limit, cfg.stack)
    decreases Room(C, limit, cfg.stack)
  {
    hide Inv, Room, Ready, ReduceStep;
    SettleStep(T, C, limit, cfg);
    if T.IsReduce(TopCode(cfg.stack)) {
      var next := ReduceStep(T, limit, cfg, TopCode(cfg.stack) - T.MinReduce());
      if next.stack != [] {
        SettleGains(T, C, limit, next);
      }
    }
  }

  /** Storing a reduction and firing it at the next lookup is the plain automaton up to the
      pending entry at a call's end.  The one exception: if firing the pending reductions
      accepts, the call that fires them stops there and its token is lost. */
  lemma {:induction false} PendingRefinesPlain(T: Tables, C: Certificate, limit: nat, cfg: Config, major: nat,
                                               token: Token)
    requires Inv(T, C, limit, cfg.stack) && major < T.nTerminal
    ensures var settled := Settle(T, C, limit, cfg);
      if cfg.stack != [] && settled.stack == []
      then Feed(T, C, limit, cfg, major, token) == Note(settled, Discarded(major, token))
      else Settle(T, C, limit, Feed(T, C, limit, cfg, major, token)) == PlainFeed(T, C, limit, settled, major, token)
    decreases Room(C, limit, cfg.stack)
  {
    hide Inv, Room, Ready, Edge, ReduceStep, ShiftStep, ShiftAction, Goto;
    SettleStep(T, C, limit, cfg);
    FeedUnfolds(T, C, limit, cfg, major, token);
    if T.IsReduce(TopCode(cfg.stack)) {
      PendingFires(T, TopCode(cfg.stack), major);
    }
    var a := ShiftAction(T, TopCode(cfg.stack), major);
    if T.IsReduce(a) {
      var next := ReduceStep(T, limit, cfg, a - T.MinReduce());
      if next.stack != [] {
        SettleStep(T, C, limit, next);
        FeedUnfolds(T, C, limit, next, major, token);
        PendingRefinesPlain(T, C, limit, next, major, token);
      }
    }
  }

  lemma PendingFires(T: Tables, code: nat, t: nat)
    requires T.IsReduce(code)
    ensures ShiftAction(T, code, t) == code
  {
  }

  // ----- exactly when the two agree -----

  lemma StepsExtendLog(T: Tables, limit: nat, cfg: Config, a: nat, r: nat, major: nat, token: Token)
    ensures cfg.log <= ShiftStep(T, limit, cfg, a, major, token).log
    ensures 1 <= limit && |Rhs(T, r)| <= |cfg.stack| && Goto(T, cfg.stack, r).Some? ==>
      cfg.log <= ReduceStep(T, limit, cfg, r).log
  {
    hide DestroyLog, LhsEntry;
  }

  lemma {:induction false} SettleExtendsLog(T: Tables, C: Certificate, limit: nat, cfg: Config)
    requires Inv(T, C, limit, cfg.stack)
    ensures cfg.log <= Settle(T, C, limit, cfg).log
    decreases Room(C, limit, cfg.stack)
  {
    hide Inv, Room, Ready, ReduceStep, Goto;
    SettleStep(T, C, limit, cfg);
    if T.IsReduce(TopCode(cfg.stack)) {
      var r := TopCode(cfg.stack) - T.MinReduce();
      StepsExtendLog(T, limit, cfg, 0, r, 0, Token(0, 0));
      var next := ReduceStep(T, limit, cfg, r);
      if next.stack != [] {
        SettleExtendsLog(T, C, limit, next);
      }
    }
  }

  lemma {:induction false} PlainFeedExtendsLog(T: Tables, C: Certificate, limit: nat, cfg: Config, major: nat,
                                               token: Token)
    requires Inv(T, C, limit, cfg.stack) && T.IsState(TopCode(cfg.stack)) && major < T.nTerminal
    ensures cfg.log <= PlainFeed(T, C, limit, cfg, major, token).log
    decreases Room(C, limit, cfg.stack)
  {
    hide Inv, Room, Ready, Edge, ReduceStep, ShiftStep, ShiftAction, Goto, Settle;
    FeedUnfolds(T, C, limit, cfg, major, token);
    var a := ShiftAction(T, TopCode(cfg.stack), major);
    if a < T.MinReduce() {
      StepsExtendLog(T, limit, cfg, a, 0, major, token);
      SettleExtendsLog(T, C, limit, ShiftStep(T, limit, cfg, a, major, token));
    } else if a < T.ErrorAction() {
      StepsExtendLog(T, limit, cfg, 0, a - T.MinReduce(), major, token);
      var next := ReduceStep(T, limit, cfg, a - T.MinReduce());
      SettleExtendsLog(T, C, limit, next);
      SettleGains(T, C, limit, next);
      var settled := Settle(T, C, limit, next);
      if settled.stack != [] {
        PlainFeedExtendsLog(T, C, limit, settled, major, token);
      }
    }
  }

  /** A call from the base that has begun to reduce keeps that in its log. */
  lemma PlainReduceActs(T: Tables, C: Certificate, limit: nat, cfg: Config, next: Config, major: nat, token: Token)
    requires Inv(T, C, limit, next.stack) && major < T.nTerminal
    requires |cfg.log| < |next.log| && !next.log[|cfg.log|].Discarded?
    ensures var settled := Settle(T, C, limit, next);
      && (Note(settled, Discarded(major, token)).log != cfg.log + [Discarded(major, token)])
      && (PlainFeed(T, C, limit, settled, major, token).log != cfg.log + [Discarded(major, token)])
  {
    hide Inv, Settle, PlainFeed;
    var settled := Settle(T, C, limit, next);
    SettleExtendsLog(T, C, limit, next);
    PlainFeedExtendsLog(T, C, limit, settled, major, token);
    assert settled.log[|cfg.log|] == next.log[|cfg.log|];
    assert PlainFeed(T, C, limit, settled, major, token).log[|cfg.log|] == next.log[|cfg.log|];
    assert (cfg.log + [Discarded(major, token)])[|cfg.log|].Discarded?;
    assert Note(settled, Discarded(major, token)).log[|cfg.log|] == next.log[|cfg.log|];
  }

  lemma FirstReduction(T: Tables, limit: nat, cfg: Config, r: nat)
    requires 1 <= limit && |Rhs(T, r)| <= |cfg.stack| && Goto(T, cfg.stack, r).Some? && cfg.stack == []
    ensures var next := ReduceStep(T, limit, cfg, r);
      |cfg.log| < |next.log| && !next.log[|cfg.log|].Discarded?
  {
    hide LhsEntry;
  }

  /** From the base, the plain automaton does something with the token before it can lose it. */
  lemma PlainFeedActs(T: Tables, C: Certificate, limit: nat, cfg: Config, major: nat, token: Token)
    requires Inv(T, C, limit, cfg.stack) && T.IsState(TopCode(cfg.stack)) && major < T.nTerminal
    requires cfg.stack == []
    ensures PlainFeed(T, C, limit, cfg, major, token).log != cfg.log + [Discarded(major, token)]
  {
    hide Inv, Room, Ready, Edge, ShiftAction, Settle, ReduceStep, Goto, Feed;
    FeedUnfolds(T, C, limit, cfg, major, token);
    HasRoom(T, C, limit, cfg);
    var a := ShiftAction(T, TopCode(cfg.stack), major);
    if a < T.MinReduce() {
      var next := ShiftStep(T, limit, cfg, a, major, token);
      assert next.log[|cfg.log|].Shifted?;
      SettleExtendsLog(T, C, limit, next);
    } else if a < T.ErrorAction() {
      FirstReduction(T, limit, cfg, a - T.MinReduce());
      PlainReduceActs(T, C, limit, cfg, ReduceStep(T, limit, cfg, a - T.MinReduce()), major, token);
    } else {
      assert Note(cfg, Rejected(major, token)).log[|cfg.log|].Rejected?;
    }
  }

  lemma HasRoom(T: Tables, C: Certificate, limit: nat, cfg: Config)
    requires Inv(T, C, limit, cfg.stack)
    ensures 1 <= limit
  {
  }

  /** A call agrees with the plain automaton up to the pending entry exactly when the pending
      reductions do not by themselves take the stack back to its base. */
  lemma PendingRefinesExactly(T: Tables, C: Certificate, limit: nat, cfg: Config, major: nat, token: Token)
    requires Inv(T, C, limit, cfg.stack) && major < T.nTerminal
    ensures var settled := Settle(T, C, limit, cfg);
      Settle(T, C, limit, Feed(T, C, limit, cfg, major, token)) == PlainFeed(T, C, limit, settled, major, token)
      <==> cfg.stack == [] || settled.stack != []
  {
    hide Inv, Feed, PlainFeed;
    PendingRefinesPlain(T, C, limit, cfg, major, token);
    var settled := Settle(T, C, limit, cfg);
    if cfg.stack != [] && settled.stack == [] {
      PlainFeedActs(T, C, limit, settled, major, token);
      SettleGains(T, C, limit, Note(settled, Discarded(major, token)));
    }
  }

  /** The plain automaton on a whole input. */
  function PlainRun(T: Tables, C: Certificate, limit: nat, tokens: Input): (cfg: Config)
    requires WellFormed(T, C) && 1 <= limit && Tokens(T, tokens)
    ensures Inv(T, C, limit, cfg.stack) && T.IsState(TopCode(cfg.stack))
    decreases |tokens|
  {
    hide WellFormed, Inv;
    InitialInv(T, C, limit);
    SettleStep(T, C, limit, INITIAL);
    if tokens == [] then INITIAL
    else
      var front, last := tokens[..|tokens| - 1], tokens[|tokens| - 1];
      PlainFeed(T, C, limit, PlainRun(T, C, limit, front), last.0, last.1)
  }

  /** Before no token do the pending reductions take the stack back to its base. */
  predicate NoPendingReturn(T: Tables, C: Certificate, limit: nat, tokens: Input)
    requires WellFormed(T, C) && 1 <= limit && Tokens(T, tokens)
    decreases |tokens|
  {
    tokens == [] ||
    var front := tokens[..|tokens| - 1];
    var cfg := FreshRun(T, C, limit, front);
    && NoPendingReturn(T, C, limit, front)
    && (cfg.stack == [] || Settle(T, C, limit, cfg).stack != [])
  }

  lemma {:induction false} RunRefinesPlainSoFar(T: Tables, C: Certificate, limit: nat, tokens: Input)
    requires WellFormed(T, C) && 1 <= limit && Tokens(T, tokens)
    requires NoPendingReturn(T, C, limit, tokens)
    ensures Settle(T, C, limit, FreshRun(T, C, limit, tokens)) == PlainRun(T, C, limit, tokens)
    decreases |tokens|
  {
    hide WellFormed, Inv, Settle, PlainFeed;
    InitialInv(T, C, limit);
    if tokens == [] {
      SettleGains(T, C, limit, INITIAL);
    } else {
      var front, last := tokens[..|tokens| - 1], tokens[|tokens| - 1];
      RunRefinesPlainSoFar(T, C, limit, front);
      PendingRefinesExactly(T, C, limit, FreshRun(T, C, limit, front), last.0, last.1);
    }
  }

  // ----- tables on which the two always agree -----

  /** No action in the tables shift-reduces by a rule for the start symbol. */
  predicate Quiet(T: Tables) {
    forall i :: 0 <= i < |T.action| && T.IsShiftReduce(T.action[i])
      ==> Lhs(T, T.action[i] - T.minShiftReduce) != T.start
  }

  /** What is pending on top is not a rule for the start symbol. */
  predicate QuietTop(T: Tables, stack: seq<Entry>) {
    T.IsReduce(TopCode(stack)) ==> Lhs(T, TopCode(stack) - T.MinReduce()) != T.start
  }

  /** Whatever is stored from a cell of the tables keeps the top quiet. */
  lemma CellIsQuiet(T: Tables, i: nat, stack: seq<Entry>, e: Entry)
    requires Quiet(T) && T.maxShift < T.minShiftReduce
    requires i < |T.action| && T.action[i] < T.MinReduce()
    requires T.IsState(T.action[i]) || T.IsShiftReduce(T.action[i])
    requires e.stateno == T.Stored(T.action[i])
    ensures QuietTop(T, stack + [e])
  {
  }

  lemma DefaultIsNoShift(T: Tables, C: Certificate, q: nat)
    requires WellFormed(T, C) && q <= T.maxShift
    ensures Default(T, q) >= T.MinReduce()
  {
    assert DefaultOK(T, C, q, Default(T, q));
  }

  lemma ShiftIsQuiet(T: Tables, C: Certificate, stack: seq<Entry>, t: nat, e: Entry)
    requires WellFormed(T, C) && Quiet(T) && Linked(T, C, stack) && t < T.nTerminal
    requires T.IsState(TopCode(stack)) || T.IsReduce(TopCode(stack))
    requires var a := ShiftAction(T, TopCode(stack), t); a < T.MinReduce() && e.stateno == T.Stored(a)
    ensures QuietTop(T, stack + [e])
  {
    hide ItemsOK, GotosOK, WeightsOK, Quiet, Linked, QuietTop, Ready, Edge;
    var q := TopCode(stack);
    var c := FirstHit(T, q, Readings(T, t));
    ActionFits(T, C, stack, t);
    if q <= T.maxShift {
      DefaultIsNoShift(T, C, q);
    }
    if c.Some? {
      CellIsQuiet(T, T.shiftOfst[q] + c.value, stack, e);
    }
  }

  lemma ReduceIsQuiet(T: Tables, C: Certificate, limit: nat, cfg: Config, r: nat)
    requires Quiet(T) && Inv(T, C, limit, cfg.stack) && Ready(T, C, cfg.stack, r)
    ensures 1 <= limit && |Rhs(T, r)| <= |cfg.stack| && Goto(T, cfg.stack, r).Some?
    ensures QuietTop(T, ReduceStep(T, limit, cfg, r).stack) || Goto(T, cfg.stack, r).value >= T.MinReduce()
  {
    hide ItemsOK, ShiftsOK, GotosOK, WeightsOK, Quiet, Linked, QuietTop, Spells, DestroyLog, Edge, LhsEntry;
    ReduceKeepsInv(T, C, limit, cfg, r);
    BaseIsQuiet(T);
    if Goto(T, cfg.stack, r).value < T.MinReduce() {
      LeftSideIsQuiet(T, C, cfg.stack, r);
    }
  }

  lemma LeftSideIsQuiet(T: Tables, C: Certificate, stack: seq<Entry>, r: nat)
    requires WellFormed(T, C) && Quiet(T) && Linked(T, C, stack) && Ready(T, C, stack, r)
    requires |Rhs(T, r)| <= |stack| && Goto(T, stack, r).Some? && Goto(T, stack, r).value < T.MinReduce()
    ensures QuietTop(T, stack[..|stack| - |Rhs(T, r)|] + [LhsEntry(T, stack, r)])
  {
    hide ItemsOK, ShiftsOK, GotosOK, WeightsOK, Quiet, Linked, QuietTop, Spells, Edge;
    var keep := |stack| - |Rhs(T, r)|;
    GotoIsMove(T, C, stack, keep, r);
    CellIsQuiet(T, T.reduceOfst[StateAt(stack, keep)] + Lhs(T, r), stack[..keep], LhsEntry(T, stack, r));
  }

  lemma BaseIsQuiet(T: Tables)
    ensures T.maxShift < T.minShiftReduce ==> QuietTop(T, [])
  {
  }

  /** A goto that does not accept enters a state or is a shift-reduce. */
  lemma GotoIsMove(T: Tables, C: Certificate, stack: seq<Entry>, keep: nat, r: nat)
    requires WellFormed(T, C) && Linked(T, C, stack) && keep <= |stack|
    requires r < |T.rules| && Begins(T, C, StateAt(stack, keep), r)
    ensures var g := GotoEntry(T, StateAt(stack, keep), Lhs(T, r));
      g.Some? && (g.value < T.MinReduce() ==> T.IsState(g.value) || T.IsShiftReduce(g.value))
  {
    hide ShiftsOK, WeightsOK, ItemsOK, Layout, Linked;
    assert GotoCellOK(T, C, StateAt(stack, keep), Lhs(T, r));
  }

  /** A pending rule that is not for the start symbol cannot empty the stack. */
  lemma {:induction false} QuietSettles(T: Tables, C: Certificate, limit: nat, cfg: Config)
    requires Quiet(T) && Inv(T, C, limit, cfg.stack) && QuietTop(T, cfg.stack) && cfg.stack != []
    ensures Settle(T, C, limit, cfg).stack != []
    decreases Room(C, limit, cfg.stack)
  {
    hide Inv, Room, Ready, Quiet, QuietTop, Goto, ReduceStep;
    SettleStep(T, C, limit, cfg);
    if T.IsReduce(TopCode(cfg.stack)) {
      var r := TopCode(cfg.stack) - T.MinReduce();
      var next := ReduceStep(T, limit, cfg, r);
      PendingStays(T, C, limit, cfg);
      ReduceIsQuiet(T, C, limit, cfg, r);
      QuietSettles(T, C, limit, next);
    }
  }

  lemma PendingStays(T: Tables, C: Certificate, limit: nat, cfg: Config)
    requires Inv(T, C, limit, cfg.stack) && T.IsReduce(TopCode(cfg.stack)) && QuietTop(T, cfg.stack)
    ensures var r := TopCode(cfg.stack) - T.MinReduce();
      && 1 <= limit && |Rhs(T, r)| <= |cfg.stack| && Goto(T, cfg.stack, r).Some?
      && Goto(T, cfg.stack, r).value < T.MinReduce()
      && ReduceStep(T, limit, cfg, r).stack != []
  {
    hide Inv, ReduceStep, Goto, Ready, Room, Settle;
    var r := TopCode(cfg.stack) - T.MinReduce();
    SettleStep(T, C, limit, cfg);
    PendingHasSymbols(T, C, limit, cfg);
    ReduceKeepsInv(T, C, limit, cfg, r);
    PushLeavesEntry(T, limit, cfg, r);
  }

  lemma PendingHasSymbols(T: Tables, C: Certificate, limit: nat, cfg: Config)
    requires Inv(T, C, limit, cfg.stack) && T.IsReduce(TopCode(cfg.stack))
    ensures |Rhs(T, TopCode(cfg.stack) - T.MinReduce())| > 0
  {
    hide ItemsOK, ShiftsOK, GotosOK, WeightsOK, Linked, Ready;
    PendingIsReady(T, C, cfg.stack);
  }

  lemma PushLeavesEntry(T: Tables, limit: nat, cfg: Config, r: nat)
    requires 1 <= limit && 0 < |Rhs(T, r)| <= |cfg.stack| && Goto(T, cfg.stack, r).Some?
    requires Goto(T, cfg.stack, r).value < T.MinReduce()
    ensures ReduceStep(T, limit, cfg, r).stack != []
  {
    hide LhsEntry;
  }

  lemma {:induction false} QuietFeed(T: Tables, C: Certificate, limit: nat, cfg: Config, major: nat, token: Token)
    requires Quiet(T) && Inv(T, C, limit, cfg.stack) && QuietTop(T, cfg.stack) && major < T.nTerminal
    ensures QuietTop(T, Feed(T, C, limit, cfg, major, token).stack)
    decreases Room(C, limit, cfg.stack)
  {
    hide Inv, Room, Ready, Edge, ShiftAction, ReduceStep, Goto, Quiet, QuietTop, DestroyLog;
    FeedUnfolds(T, C, limit, cfg, major, token);
    InvParts(T, C, limit, cfg.stack);
    var a := ShiftAction(T, TopCode(cfg.stack), major);
    if a < T.MinReduce() {
      ShiftIsQuiet(T, C, cfg.stack, major, Entry(T.Stored(a), major, Leaf(token)));
    } else if a < T.ErrorAction() {
      var next := ReduceStep(T, limit, cfg, a - T.MinReduce());
      ReduceIsQuiet(T, C, limit, cfg, a - T.MinReduce());
      if next.stack != [] {
        AcceptEmpties(T, limit, cfg, a - T.MinReduce());
        FeedUnfolds(T, C, limit, next, major, token);
        QuietFeed(T, C, limit, next, major, token);
      }
    }
  }

  lemma InvParts(T: Tables, C: Certificate, limit: nat, stack: seq<Entry>)
    requires Inv(T, C, limit, stack)
    ensures WellFormed(T, C) && Linked(T, C, stack) && QuietTop(T, [])
    ensures T.IsState(TopCode(stack)) || T.IsReduce(TopCode(stack))
  {
    OnlyBaseIsZero(T, C, stack, |stack|);
    BaseIsQuiet(T);
  }

  lemma AcceptEmpties(T: Tables, limit: nat, cfg: Config, r: nat)
    requires 1 <= limit && |Rhs(T, r)| <= |cfg.stack| && Goto(T, cfg.stack, r).Some?
    requires Goto(T, cfg.stack, r).value >= T.MinReduce() ==> |cfg.stack| == |Rhs(T, r)|
    ensures ReduceStep(T, limit, cfg, r).stack != [] ==> Goto(T, cfg.stack, r).value < T.MinReduce()
  {
    hide DestroyLog, LhsEntry;
  }

  lemma {:induction false} QuietRun(T: Tables, C: Certificate, limit: nat, tokens: Input)
    requires WellFormed(T, C) && Quiet(T) && 1 <= limit && Tokens(T, tokens)
    ensures QuietTop(T, FreshRun(T, C, limit, tokens).stack)
    ensures NoPendingReturn(T, C, limit, tokens)
    decreases |tokens|
  {
    hide WellFormed, Inv, Quiet, QuietTop, Feed, Settle;
    InitialInv(T, C, limit);
    InvParts(T, C, limit, []);
    if tokens != [] {
      var front, last := tokens[..|tokens| - 1], tokens[|tokens| - 1];
      QuietRun(T, C, limit, front);
      var cfg := FreshRun(T, C, limit, front);
      QuietFeed(T, C, limit, cfg, last.0, last.1);
      if cfg.stack != [] {
        QuietSettles(T, C, limit, cfg);
      }
    }
  }

  /** Whole runs, on tables that never shift-reduce the start symbol: for every input, firing
      what is pending gives the configuration of the plain automaton, with the same rules fired
      on the same entries in the same order. */
  lemma RunRefinesPlain(T: Tables, C: Certificate, limit: nat, tokens: Input)
    requires WellFormed(T, C) && Quiet(T) && 1 <= limit && Tokens(T, tokens)
    ensures Settle(T, C, limit, FreshRun(T, C, limit, tokens)) == PlainRun(T, C, limit, tokens)
  {
    hide WellFormed, Quiet, NoPendingReturn;
    QuietRun(T, C, limit, tokens);
    RunRefinesPlainSoFar(T, C, limit, tokens);
  }

  /** Runs of one and of two tokens, unfolded. */
  lemma ShortRuns(T: Tables, C: Certificate, limit: nat, a: nat, t: Token, b: nat, u: Token)
    requires WellFormed(T, C) && 1 <= limit && a < T.nTerminal && b < T.nTerminal
    ensures Tokens(T, [(a, t)]) && Tokens(T, [(a, t), (b, u)])
    ensures Inv(T, C, limit, INITIAL.stack)
    ensures FreshRun(T, C, limit, [(a, t)]) == Feed(T, C, limit, INITIAL, a, t)
    ensures FreshRun(T, C, limit, [(a, t), (b, u)]) == Feed(T, C, limit, Feed(T, C, limit, INITIAL, a, t), b, u)
    ensures Settle(T, C, limit, Feed(T, C, limit, INITIAL, a, t)) == PlainRun(T, C, limit, [(a, t)])
    ensures PlainRun(T, C, limit, [(a, t), (b, u)])
         == PlainFeed(T, C, limit, PlainRun(T, C, limit, [(a, t)]), b, u)
  {
    hide WellFormed, Inv, Feed, Settle, PlainFeed;
    InitialInv(T, C, limit);
    assert [(a, t)][..0] == [] && [(a, t), (b, u)][..1] == [(a, t)];
    RunRefinesPlainSoFar(T, C, limit, [(a, t)]);
  }
}

/** The driver: shift, reduce, overflow, and the loop that handles one token. */
module Driver {
  import opened Wrappers
  import opened Tables
  import opened Machine

  // ----- weights -----

  function Weight(C: Certificate, es: seq<Entry>): int {
    if es == [] then 0 else Weight(C, es[..|es| - 1]) + MajorWeight(C, es[|es| - 1].major)
  }

  lemma {:induction false} WeightConcat(C: Certificate, es: seq<Entry>, fs: seq<Entry>)
    ensures Weight(C, es + fs) == Weight(C, es) + Weight(C, fs)
  {
    if fs == [] {
      assert es + fs == es;
    } else {
      assert (es + fs)[..|es + fs| - 1] == es + fs[..|fs| - 1];
      WeightConcat(C, es, fs[..|fs| - 1]);
    }
  }

  lemma {:induction false} WeightBound(T: Tables, C: Certificate, es: seq<Entry>, limit: nat)
    requires WellFormed(T, C) && |es| <= limit
    ensures Weight(C, es) <= limit * C.wmax
  {
    if es != [] {
      WeightBound(T, C, es[..|es| - 1], limit - 1);
      assert (limit - 1) * C.wmax + C.wmax == limit * C.wmax;
    }
  }

  /** Optimized-out unit rules only make a symbol heavier. */
  lemma {:induction false} ChainWeight(T: Tables, C: Certificate, x: nat, chain: seq<nat>, s: nat)
    requires Layout(T) && WeightsOK(T, C)
    requires T.nTerminal <= x < T.nSymbol && UnitChain(T, x, chain, s)
    ensures T.nTerminal <= s < T.nSymbol && MajorWeight(C, x) <= MajorWeight(C, s)
    decreases |chain|
  {
    if chain != [] {
      var r := chain[0];
      assert RuleOK(T, r);
      assert RuleGains(T, C, r);
      assert RhsWeight(C, [One(x)]) == MajorWeight(C, x) by {
        assert [One(x)][..0] == [];
      }
      ChainWeight(T, C, Lhs(T, r), chain[1..], s);
    }
  }

  lemma ReadsWeight(T: Tables, C: Certificate, x: nat, y: Sym)
    requires Layout(T) && WeightsOK(T, C) && SymOK(T, y) && Reads(T, x, y)
    ensures x < T.nSymbol && MajorWeight(C, x) <= SymWeight(C, y)
  {
    var chain, s :| StandsFor(T, x, chain, s) && Matches(y, s);
    if x < T.nTerminal {
      assert FallbackOK(T, x);
    } else {
      ChainWeight(T, C, x, chain, s);
    }
  }

  lemma {:induction false} SpellsWeight(T: Tables, C: Certificate, es: seq<Entry>, ys: seq<Sym>)
    requires Layout(T) && WeightsOK(T, C)
    requires forall i :: 0 <= i < |ys| ==> SymOK(T, ys[i])
    requires Spells(T, C, es, ys)
    ensures Weight(C, es) <= RhsWeight(C, ys)
    decreases |es|
  {
    if es != [] {
      var n := |es| - 1;
      assert EntrySpells(T, C, es[n], ys[n]);
      ReadsWeight(T, C, es[n].major, ys[n]);
      SpellsWeight(T, C, es[..n], ys[..n]);
    }
  }

  // ----- the goto after a reduction -----

  /** Every entry above the base has a state field other than 0. */
  lemma OnlyBaseIsZero(T: Tables, C: Certificate, stack: seq<Entry>, n: nat)
    requires Layout(T) && ItemsOK(T, C) && Linked(T, C, stack) && n <= |stack|
    ensures StateAt(stack, n) == 0 <==> n == 0
    ensures T.IsState(StateAt(stack, n)) || T.IsReduce(StateAt(stack, n))
  {
    if n > 0 {
      assert LinkedAt(T, C, stack, n - 1);
    }
  }

  /** The goto lookup succeeds, and either fits the uncovered state or accepts at the base. */
  lemma GotoFits(T: Tables, C: Certificate, stack: seq<Entry>, keep: nat, r: nat)
    requires WellFormed(T, C) && Linked(T, C, stack) && keep <= |stack|
    requires r < |T.rules| && Begins(T, C, StateAt(stack, keep), r)
    ensures var g := GotoEntry(T, StateAt(stack, keep), Lhs(T, r));
      && g.Some?
      && StateAt(stack, keep) < |T.reduceOfst| && T.reduceOfst[StateAt(stack, keep)] != T.reduceUseDflt
      && (if g.value < T.MinReduce()
          then Edge(T, C, StateAt(stack, keep), T.Stored(g.value), Lhs(T, r))
          else g.value == T.AcceptAction() && keep == 0 && Lhs(T, r) == T.start)
  {
    hide ShiftsOK, WeightsOK;
    var p, x := StateAt(stack, keep), Lhs(T, r);
    assert GotoCellOK(T, C, p, x);
    OnlyBaseIsZero(T, C, stack, keep);
    assert RuleOK(T, r);
    var g := GotoEntry(T, p, x).value;
    if g < T.MinReduce() {
      var chain, s :| StandsFor(T, x, chain, s) && MoveOK(T, C, p, g, s);
    }
  }

  // ----- one step -----

  /** The entries of `stack`, popped top first. */
  function DestroyLog(stack: seq<Entry>): seq<Event> {
    if stack == [] then []
    else [Destroyed(stack[|stack| - 1])] + DestroyLog(stack[..|stack| - 1])
  }

  function ShiftStep(T: Tables, limit: nat, cfg: Config, a: nat, major: nat, token: Token): Config {
    if |cfg.stack| >= limit then
      Config([], cfg.log + DestroyLog(cfg.stack) + [Overflowed(false)])
    else
      var e := Entry(T.Stored(a), major, Leaf(token));
      Config(cfg.stack + [e], cfg.log + [Shifted(e)])
  }

  /** The goto that follows a reduction by r. */
  function Goto(T: Tables, stack: seq<Entry>, r: nat): Option<nat>
    requires |Rhs(T, r)| <= |stack|
  {
    GotoEntry(T, StateAt(stack, |stack| - |Rhs(T, r)|), Lhs(T, r))
  }

  /** The entry that replaces the right side of r. */
  function LhsEntry(T: Tables, stack: seq<Entry>, r: nat): Entry
    requires |Rhs(T, r)| <= |stack| && Goto(T, stack, r).Some?
  {
    Entry(T.Stored(Goto(T, stack, r).value), Lhs(T, r), Built(r, Minors(stack[|stack| - |Rhs(T, r)|..])))
  }

  /** Reduce by r.  An empty rule needs room for its left side; without it the top entry is
      dropped and the rest is destroyed. */
  function ReduceStep(T: Tables, limit: nat, cfg: Config, r: nat): Config
    requires 1 <= limit && |Rhs(T, r)| <= |cfg.stack| && Goto(T, cfg.stack, r).Some?
  {
    var keep := |cfg.stack| - |Rhs(T, r)|;
    if |Rhs(T, r)| == 0 && |cfg.stack| >= limit then
      var top := |cfg.stack| - 1;
      Config([], cfg.log + [Dropped(cfg.stack[top])] + DestroyLog(cfg.stack[..top]) + [Overflowed(true)])
    else if Goto(T, cfg.stack, r).value < T.MinReduce() then
      var e := LhsEntry(T, cfg.stack, r);
      Config(cfg.stack[..keep] + [e], cfg.log + [Reduced(r, cfg.stack[keep..], e)])
    else
      Config(cfg.stack[..keep], cfg.log + [Accepted(r, cfg.stack[keep..])])
  }

  lemma LhsOutweighsRhs(T: Tables, C: Certificate, es: seq<Entry>, r: nat)
    requires WellFormed(T, C) && r < |T.rules| && Spells(T, C, es, Rhs(T, r))
    ensures Weight(C, es) < MajorWeight(C, Lhs(T, r))
  {
    hide ShiftsOK, GotosOK, ItemsOK, Spells;
    assert RuleOK(T, r);
    assert RuleGains(T, C, r);
    SpellsWeight(T, C, es, Rhs(T, r));
  }

  lemma PushGains(T: Tables, C: Certificate, stack: seq<Entry>, r: nat, e: Entry)
    requires WellFormed(T, C) && Ready(T, C, stack, r) && e.major == Lhs(T, r)
    ensures Weight(C, stack[..|stack| - |Rhs(T, r)|] + [e]) > Weight(C, stack)
  {
    hide WellFormed, Spells, Weight, Begins;
    var keep := |stack| - |Rhs(T, r)|;
    LhsOutweighsRhs(T, C, stack[keep..], r);
    WeightConcat(C, stack[..keep], stack[keep..]);
    assert stack[..keep] + stack[keep..] == stack;
    WeightPush(C, stack[..keep], e);
  }

  lemma WeightPush(C: Certificate, es: seq<Entry>, e: Entry)
    ensures Weight(C, es + [e]) == Weight(C, es) + MajorWeight(C, e.major)
  {
    assert (es + [e])[..|es + [e]| - 1] == es;
  }

  /** A reduction the stack is ready for meets the driver's assertions, keeps the invariant,
      and makes the stack heavier unless it empties it. */
  lemma ReduceKeepsInv(T: Tables, C: Certificate, limit: nat, cfg: Config, r: nat)
    requires Inv(T, C, limit, cfg.stack) && Ready(T, C, cfg.stack, r)
    ensures 1 <= limit && |Rhs(T, r)| <= |cfg.stack| && Goto(T, cfg.stack, r).Some?
    ensures Inv(T, C, limit, ReduceStep(T, limit, cfg, r).stack)
    ensures ReduceStep(T, limit, cfg, r).stack == []
         || Weight(C, ReduceStep(T, limit, cfg, r).stack) > Weight(C, cfg.stack)
    ensures Goto(T, cfg.stack, r).value >= T.MinReduce()
        ==> |cfg.stack| == |Rhs(T, r)| && Lhs(T, r) == T.start
  {
    hide WellFormed, Spells, Linked, Edge, Weight, Begins, DestroyLog;
    var keep := |cfg.stack| - |Rhs(T, r)|;
    GotoFits(T, C, cfg.stack, keep, r);
    LinkedPrefix(T, C, cfg.stack, keep);
    LinkedPrefix(T, C, cfg.stack, 0);
    assert cfg.stack[..0] == [];
    if Goto(T, cfg.stack, r).value < T.MinReduce() {
      var e := LhsEntry(T, cfg.stack, r);
      PushGains(T, C, cfg.stack, r, e);
      TakeTop(cfg.stack, keep);
      LinkedPush(T, C, cfg.stack[..keep], e);
    }
  }

  lemma TakeTop(stack: seq<Entry>, n: nat)
    requires n <= |stack|
    ensures TopCode(stack[..n]) == StateAt(stack, n)
  {
  }

  // ----- one call of the parser -----

  function Note(cfg: Config, ev: Event): Config {
    Config(cfg.stack, cfg.log + [ev])
  }

  /** What the driver is about to do with the token. */
  lemma NextAction(T: Tables, C: Certificate, limit: nat, stack: seq<Entry>, major: nat)
    requires Inv(T, C, limit, stack) && major < T.nTerminal
    ensures var a := ShiftAction(T, TopCode(stack), major);
      && (a < T.MinReduce() ==>
            && (T.IsState(a) || T.IsShiftReduce(a))
            && Edge(T, C, TopCode(stack), T.Stored(a), major))
      && (T.IsReduce(a) ==> Ready(T, C, stack, a - T.MinReduce()))
      && a <= T.ErrorAction()
    ensures Weight(C, stack) <= limit * C.wmax
  {
    OnlyBaseIsZero(T, C, stack, |stack|);
    ActionFits(T, C, stack, major);
    WeightBound(T, C, stack, limit);
  }

  /** One call with one token: reduce until the token is shifted or rejected, or until a
      reduction has brought the stack back to its base. */
  function Feed(T: Tables, C: Certificate, limit: nat, cfg: Config, major: nat, token: Token): (cfg': Config)
    requires Inv(T, C, limit, cfg.stack) && major < T.nTerminal
    ensures Inv(T, C, limit, cfg'.stack)
    decreases Room(C, limit, cfg.stack)
  {
    NextAction(T, C, limit, cfg.stack, major);
    var a := ShiftAction(T, TopCode(cfg.stack), major);
    if a < T.MinReduce() then
      ShiftKeepsInv(T, C, limit, cfg, a, major, token);
      var next := ShiftStep(T, limit, cfg, a, major, token);
      if next.stack == [] then Note(next, Discarded(major, token)) else next
    else if a < T.ErrorAction() then
      ReduceKeepsInv(T, C, limit, cfg, a - T.MinReduce());
      var next := ReduceStep(T, limit, cfg, a - T.MinReduce());
      if next.stack == [] then Note(next, Discarded(major, token))
      else
        WeightBound(T, C, next.stack, limit);
        Feed(T, C, limit, next, major, token)
    else
      Note(cfg, Rejected(major, token))
  }

  /** What is left for the reductions of a call to gain. */
  ghost function Room(C: Certificate, limit: nat, stack: seq<Entry>): int {
    limit * C.wmax - Weight(C, stack)
  }

  /** A call unfolded by one step: its three branches, with everything each may rely on. */
  lemma FeedUnfolds(T: Tables, C: Certificate, limit: nat, cfg: Config, major: nat, token: Token)
    requires Inv(T, C, limit, cfg.stack) && major < T.nTerminal
    ensures var a := ShiftAction(T, TopCode(cfg.stack), major);
      && a <= T.ErrorAction()
      && (a < T.MinReduce() ==> FeedShifts(T, C, limit, cfg, a, major, token))
      && (T.IsReduce(a) ==> FeedReduces(T, C, limit, cfg, a - T.MinReduce(), major, token))
      && (a == T.ErrorAction() ==>
            Feed(T, C, limit, cfg, major, token) == Note(cfg, Rejected(major, token)))
    ensures 0 <= Room(C, limit, cfg.stack)
  {
    hide Inv, Weight, Ready, Edge, ShiftStep, ReduceStep, Goto, ShiftAction;
    NextAction(T, C, limit, cfg.stack, major);
    var a := ShiftAction(T, TopCode(cfg.stack), major);
    if a < T.MinReduce() {
      ShiftKeepsInv(T, C, limit, cfg, a, major, token);
    } else if a < T.ErrorAction() {
      ReduceKeepsInv(T, C, limit, cfg, a - T.MinReduce());
    }
  }

  ghost predicate FeedShifts(T: Tables, C: Certificate, limit: nat, cfg: Config, a: nat, major: nat, token: Token)
    requires Inv(T, C, limit, cfg.stack) && major < T.nTerminal
  {
    var next := ShiftStep(T, limit, cfg, a, major, token);
    && Edge(T, C, TopCode(cfg.stack), T.Stored(a), major)
    && Inv(T, C, limit, next.stack)
    && Feed(T, C, limit, cfg, major, token)
       == if next.stack == [] then Note(next, Discarded(major, token)) else next
  }

  ghost predicate FeedReduces(T: Tables, C: Certificate, limit: nat, cfg: Config, r: nat, major: nat, token: Token)
    requires Inv(T, C, limit, cfg.stack) && major < T.nTerminal
  {
    && r < |T.rules|
    && Ready(T, C, cfg.stack, r)
    && 1 <= limit && |Rhs(T, r)| <= |cfg.stack| && Goto(T, cfg.stack, r).Some?
    && (Goto(T, cfg.stack, r).value >= T.MinReduce() ==> |cfg.stack| == |Rhs(T, r)| && Lhs(T, r) == T.start)
    && var next := ReduceStep(T, limit, cfg, r);
    && Inv(T, C, limit, next.stack)
    && (next.stack != [] ==> Room(C, limit, next.stack) < Room(C, limit, cfg.stack))
    && Feed(T, C, limit, cfg, major, token)
       == if next.stack == [] then Note(next, Discarded(major, token))
          else Feed(T, C, limit, next, major, token)
  }

  lemma ShiftKeepsInv(T: Tables, C: Certificate, limit: nat, cfg: Config, a: nat, major: nat, token: Token)
    requires Inv(T, C, limit, cfg.stack)
    requires Edge(T, C, TopCode(cfg.stack), T.Stored(a), major)
    ensures Inv(T, C, limit, ShiftStep(T, limit, cfg, a, major, token).stack)
  {
    LinkedPush(T, C, cfg.stack, Entry(T.Stored(a), major, Leaf(token)));
  }

  /** A whole run. */
  function Run(T: Tables, C: Certificate, limit: nat, cfg: Config, tokens: seq<(nat, Token)>): (cfg': Config)
    requires Inv(T, C, limit, cfg.stack)
    requires forall i :: 0 <= i < |tokens| ==> tokens[i].0 < T.nTerminal
    ensures Inv(T, C, limit, cfg'.stack)
    decreases |tokens|
  {
    if tokens == [] then cfg
    else
      var front, last := tokens[..|tokens| - 1], tokens[|tokens| - 1];
      Feed(T, C, limit, Run(T, C, limit, cfg, front), last.0, last.1)
  }
}

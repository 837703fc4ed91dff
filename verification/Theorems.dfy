/** The main results about runs of the parser, for every table that is well formed and every
    sequence of tokens. */
module Theorems {
  import opened Wrappers
  import opened Tables
  import opened Grammar
  import opened Machine
  import opened Driver
  import opened History
  import opened Runs

  type Input = seq<(nat, Token)>

  predicate Tokens(T: Tables, tokens: Input) {
    forall i :: 0 <= i < |tokens| ==> tokens[i].0 < T.nTerminal
  }

  lemma InitialInv(T: Tables, C: Certificate, limit: nat)
    requires WellFormed(T, C) && 1 <= limit
    ensures Inv(T, C, limit, INITIAL.stack)
  {
  }

  /** The run from a fresh parser. */
  function FreshRun(T: Tables, C: Certificate, limit: nat, tokens: Input): (cfg: Config)
    requires WellFormed(T, C) && 1 <= limit && Tokens(T, tokens)
  {
    InitialInv(T, C, limit);
    Run(T, C, limit, INITIAL, tokens)
  }

  lemma FreshRunIsRecorded(T: Tables, C: Certificate, limit: nat, tokens: Input)
    requires WellFormed(T, C) && 1 <= limit && Tokens(T, tokens)
    ensures Recorded(T, C, limit, FreshRun(T, C, limit, tokens))
  {
    hide WellFormed, Recorded;
    InitialInv(T, C, limit);
    RecordedInitially(T, C, limit);
    RunIsRecorded(T, C, limit, INITIAL, tokens);
  }

  // ----- safety of every reachable state -----

  /** The stack fits, only its top entry can hold a pending reduction, and look-ahead t leads to
      a shift, to a reduction, or to the error action. */
  ghost predicate Safe(T: Tables, C: Certificate, limit: nat, stack: seq<Entry>, t: nat) {
    var a := ShiftAction(T, TopCode(stack), t);
    && |stack| <= limit
    && (forall i :: 0 < i < |stack| ==> T.IsState(StateAt(stack, i)) && StateAt(stack, i) != 0)
    && a <= T.ErrorAction()
    && (a < T.MinReduce() ==> T.IsState(a) || T.IsShiftReduce(a))
    && (T.IsReduce(a) ==> SafeReduction(T, C, stack, a - T.MinReduce()))
  }

  /** A reduction is by a rule that the tables still have; its right side is on the stack, its
      goto exists in a row that has gotos, and it accepts only if it empties the stack. */
  ghost predicate SafeReduction(T: Tables, C: Certificate, stack: seq<Entry>, r: nat) {
    && r < |T.rules| && !OptimizedOut(T, r)
    && |Rhs(T, r)| <= |stack|
    && Spells(T, C, stack[|stack| - |Rhs(T, r)|..], Rhs(T, r))
    && Goto(T, stack, r).Some?
    && StateAt(stack, |stack| - |Rhs(T, r)|) < |T.reduceOfst|
    && T.reduceOfst[StateAt(stack, |stack| - |Rhs(T, r)|)] != T.reduceUseDflt
    && (Goto(T, stack, r).value >= T.MinReduce() ==>
          Goto(T, stack, r).value == T.AcceptAction() && |Rhs(T, r)| == |stack|)
  }

  lemma BelowTopAreStates(T: Tables, C: Certificate, stack: seq<Entry>)
    requires WellFormed(T, C) && Linked(T, C, stack)
    ensures forall i :: 0 < i < |stack| ==> T.IsState(StateAt(stack, i)) && StateAt(stack, i) != 0
  {
    hide ShiftsOK, GotosOK, WeightsOK, Reads, Advances;
    forall i | 0 < i < |stack|
      ensures T.IsState(StateAt(stack, i)) && StateAt(stack, i) != 0
    {
      assert LinkedAt(T, C, stack, i);
      OnlyBaseIsZero(T, C, stack, i);
    }
  }

  lemma InvIsSafe(T: Tables, C: Certificate, limit: nat, stack: seq<Entry>, t: nat)
    requires Inv(T, C, limit, stack) && t < T.nTerminal
    ensures Safe(T, C, limit, stack, t)
  {
    hide WellFormed, Spells, Linked;
    NextAction(T, C, limit, stack, t);
    BelowTopAreStates(T, C, stack);
    var a := ShiftAction(T, TopCode(stack), t);
    if T.IsReduce(a) {
      var r := a - T.MinReduce();
      GotoFits(T, C, stack, |stack| - |Rhs(T, r)|, r);
    }
  }

  /** The configuration of the next round of a call, if the driver loop goes round again. */
  function NextRound(T: Tables, C: Certificate, limit: nat, cfg: Config, major: nat, token: Token): Option<Config>
    requires Inv(T, C, limit, cfg.stack) && major < T.nTerminal
  {
    hide Inv, Room, Ready, Edge, ReduceStep, ShiftStep, Goto, Feed, ShiftAction, FeedShifts;
    FeedUnfolds(T, C, limit, cfg, major, token);
    var a := ShiftAction(T, TopCode(cfg.stack), major);
    if !T.IsReduce(a) then None
    else
      var next := ReduceStep(T, limit, cfg, a - T.MinReduce());
      if next.stack == [] then None else Some(next)
  }

  lemma NextRoundKeepsInv(T: Tables, C: Certificate, limit: nat, cfg: Config, major: nat, token: Token)
    requires Inv(T, C, limit, cfg.stack) && major < T.nTerminal
    ensures var next := NextRound(T, C, limit, cfg, major, token);
      next.Some? ==>
        && Inv(T, C, limit, next.value.stack)
        && Feed(T, C, limit, next.value, major, token) == Feed(T, C, limit, cfg, major, token)
        && 0 <= Room(C, limit, next.value.stack) < Room(C, limit, cfg.stack)
  {
    hide Inv, Room, Ready, Edge, ReduceStep, ShiftStep, Goto, Feed, ShiftAction, FeedShifts;
    var next := NextRound(T, C, limit, cfg, major, token);
    if next.Some? {
      FeedUnfolds(T, C, limit, cfg, major, token);
      FeedUnfolds(T, C, limit, next.value, major, token);
    }
  }

  /** The configurations in which a call looks up its token, one for each round. */
  function Rounds(T: Tables, C: Certificate, limit: nat, cfg: Config, major: nat, token: Token): (rounds: seq<Config>)
    requires Inv(T, C, limit, cfg.stack) && major < T.nTerminal
    ensures rounds != [] && rounds[0] == cfg
    decreases Room(C, limit, cfg.stack)
  {
    hide Inv, Room, NextRound, Feed;
    NextRoundKeepsInv(T, C, limit, cfg, major, token);
    var next := NextRound(T, C, limit, cfg, major, token);
    if next.None? then [cfg] else [cfg] + Rounds(T, C, limit, next.value, major, token)
  }

  lemma {:induction false} RoundsKeepInv(T: Tables, C: Certificate, limit: nat, cfg: Config, major: nat, token: Token,
                                         i: nat)
    requires Inv(T, C, limit, cfg.stack) && major < T.nTerminal
    requires i < |Rounds(T, C, limit, cfg, major, token)|
    ensures var here := Rounds(T, C, limit, cfg, major, token)[i];
      && Inv(T, C, limit, here.stack)
      && Feed(T, C, limit, here, major, token) == Feed(T, C, limit, cfg, major, token)
    decreases i
  {
    hide Inv, Room, NextRound, Feed;
    if i > 0 {
      NextRoundKeepsInv(T, C, limit, cfg, major, token);
      RoundsKeepInv(T, C, limit, NextRound(T, C, limit, cfg, major, token).value, major, token, i - 1);
    }
  }

  /** After any tokens, errors and overflows included, every round of the next call is safe and
      on the way to that call's result. */
  lemma ReachableIsSafe(T: Tables, C: Certificate, limit: nat, tokens: Input, t: nat, token: Token, i: nat)
    requires WellFormed(T, C) && 1 <= limit && Tokens(T, tokens) && t < T.nTerminal
    ensures Inv(T, C, limit, FreshRun(T, C, limit, tokens).stack)
    ensures var cfg := FreshRun(T, C, limit, tokens);
      var rounds := Rounds(T, C, limit, cfg, t, token);
      i < |rounds| ==>
        && Safe(T, C, limit, rounds[i].stack, t)
        && Inv(T, C, limit, rounds[i].stack)
        && Feed(T, C, limit, rounds[i], t, token) == Feed(T, C, limit, cfg, t, token)
  {
    hide WellFormed, Safe, Linked, Feed, Rounds;
    InitialInv(T, C, limit);
    var cfg := FreshRun(T, C, limit, tokens);
    var rounds := Rounds(T, C, limit, cfg, t, token);
    if i < |rounds| {
      RoundsKeepInv(T, C, limit, cfg, t, token, i);
      InvIsSafe(T, C, limit, rounds[i].stack, t);
    }
  }

  // ----- acceptance is sound -----

  lemma {:induction false} AcceptAt(T: Tables, C: Certificate, limit: nat, log: seq<Event>, i: nat)
    requires AcceptsSound(T, C, limit, log) && i < |log| && log[i].Accepted?
    ensures SoundAccept(T, C, limit, log[..i], log[i].rule)
    decreases |log|
  {
    hide SoundAccept;
    var n := |log| - 1;
    if i < n {
      AcceptAt(T, C, limit, log[..n], i);
      assert log[..n][..i] == log[..i];
    }
  }

  /** Whenever a run accepts, the tokens shifted since the stack last stood at its base are a
      sentence of the grammar, and the rules fired since then, in reverse, are its rightmost
      derivation once the optimized-out unit rules are put back.  The rules fired number at
      most k per token shifted plus a constant. */
  lemma AcceptanceIsSound(T: Tables, C: Certificate, limit: nat, tokens: Input, i: nat)
    requires WellFormed(T, C) && 1 <= limit && Tokens(T, tokens)
    requires var log := FreshRun(T, C, limit, tokens).log; i < |log| && log[i].Accepted?
    ensures var log := FreshRun(T, C, limit, tokens).log;
      var shifted, fired := ShiftedSince(log[..i]), FiredSince(log[..i]) + [log[i].rule];
      && Sentence(T, Majors(shifted), fired)
      && |fired| <= C.k * |shifted| + limit * C.wmax
  {
    hide WellFormed, Sentence;
    FreshRunIsRecorded(T, C, limit, tokens);
    AcceptAt(T, C, limit, FreshRun(T, C, limit, tokens).log, i);
  }

  /** Between two returns to the base the work is linear in the tokens shifted, and the
      values on the stack were built from those tokens by those rules and nothing else. */
  lemma WorkIsLinear(T: Tables, C: Certificate, limit: nat, tokens: Input)
    requires WellFormed(T, C) && 1 <= limit && Tokens(T, tokens)
    ensures var cfg := FreshRun(T, C, limit, tokens);
      && |FiredSince(cfg.log)| <= C.k * |ShiftedSince(cfg.log)| + limit * C.wmax
      && FrontierAll(Minors(cfg.stack)) == FrontierAll(Minors(ShiftedSince(cfg.log)))
      && ActionsAll(Minors(cfg.stack)) == FiredSince(cfg.log)
  {
    hide WellFormed, Explained;
    var cfg := FreshRun(T, C, limit, tokens);
    FreshRunIsRecorded(T, C, limit, tokens);
    WeightBound(T, C, cfg.stack, limit);
  }

  // ----- conservation of entries -----

  function Pushed(log: seq<Event>): multiset<Entry> {
    if log == [] then multiset{}
    else
      var before := Pushed(log[..|log| - 1]);
      match log[|log| - 1]
      case Shifted(e) => before + multiset{e}
      case Reduced(_, _, e) => before + multiset{e}
      case _ => before
  }

  function Consumed(log: seq<Event>): multiset<Entry> {
    if log == [] then multiset{}
    else
      var before := Consumed(log[..|log| - 1]);
      match log[|log| - 1]
      case Reduced(_, rhs, _) => before + multiset(rhs)
      case Accepted(_, rhs) => before + multiset(rhs)
      case _ => before
  }

  function DestroyedIn(log: seq<Event>): multiset<Entry> {
    if log == [] then multiset{}
    else
      var before := DestroyedIn(log[..|log| - 1]);
      match log[|log| - 1]
      case Destroyed(e) => before + multiset{e}
      case _ => before
  }

  function DroppedIn(log: seq<Event>): (m: multiset<Entry>)
    ensures |m| == Drops(log)
  {
    if log == [] then multiset{}
    else
      var before := DroppedIn(log[..|log| - 1]);
      match log[|log| - 1]
      case Dropped(e) => before + multiset{e}
      case _ => before
  }

  lemma CutSplits(s: seq<Entry>, top: seq<Entry>)
    requires IsTop(s, top)
    ensures multiset(s) == multiset(Cut(s, |top|)) + multiset(top)
    ensures |top| == 1 ==> multiset(top) == multiset{top[0]}
  {
    assert |top| == 1 ==> top == [top[0]];
    assert s == Cut(s, |top|) + top;
  }

  /** Moving t out of the stack r into one of the other three shares. */
  lemma Move(p: multiset<Entry>, r: multiset<Entry>, t: multiset<Entry>, c: multiset<Entry>, d: multiset<Entry>,
             x: multiset<Entry>)
    requires p == r + t + c + d + x
    ensures p == r + (c + t) + d + x && p == r + c + (d + t) + x && p == r + c + d + (x + t)
  {
  }

  lemma Push(p: multiset<Entry>, r: multiset<Entry>, e: multiset<Entry>, c: multiset<Entry>, d: multiset<Entry>,
             x: multiset<Entry>)
    requires p == r + c + d + x
    ensures p + e == (r + e) + c + d + x
  {
  }

  /** Each event moves entries between the shares without losing or doubling one. */
  lemma BalanceStep(limit: nat, log: seq<Event>, ev: Event)
    requires Lawful(limit, log + [ev])
    requires Pushed(log) == multiset(Replay(log)) + Consumed(log) + DestroyedIn(log) + DroppedIn(log)
    ensures var log' := log + [ev];
      Pushed(log') == multiset(Replay(log')) + Consumed(log') + DestroyedIn(log') + DroppedIn(log')
  {
    hide IsTop, Cut;
    LogPush(log, ev);
    var s := Replay(log);
    var p, c, d, x := Pushed(log), Consumed(log), DestroyedIn(log), DroppedIn(log);
    match ev
    case Shifted(e) => Push(p, multiset(s), multiset{e}, c, d, x);
    case Reduced(_, rhs, e) =>
      CutSplits(s, rhs);
      Move(p, multiset(Cut(s, |rhs|)), multiset(rhs), c, d, x);
      Push(p, multiset(Cut(s, |rhs|)), multiset{e}, c + multiset(rhs), d, x);
    case Accepted(_, rhs) =>
      AllIsTop(s);
      CutSplits(s, rhs);
      Move(p, multiset(Cut(s, |rhs|)), multiset(rhs), c, d, x);
    case Destroyed(e) =>
      CutSplits(s, [e]);
      Move(p, multiset(Cut(s, 1)), multiset{e}, c, d, x);
    case Dropped(e) =>
      CutSplits(s, [e]);
      Move(p, multiset(Cut(s, 1)), multiset{e}, c, d, x);
    case _ =>
  }

  lemma AllIsTop(s: seq<Entry>)
    ensures IsTop(s, s)
  {
  }

  lemma {:induction false} Balance(limit: nat, log: seq<Event>)
    requires Lawful(limit, log)
    ensures Pushed(log) == multiset(Replay(log)) + Consumed(log) + DestroyedIn(log) + DroppedIn(log)
    decreases |log|
  {
    if log != [] {
      hide Replay, Pushed, Consumed, DestroyedIn, DroppedIn, IsTop;
      var n := |log| - 1;
      var front, ev := log[..n], log[n];
      assert log == front + [ev];
      Balance(limit, front);
      BalanceStep(limit, front, ev);
    }
  }

  // ----- exactly which entries are dropped -----

  /** Look-ahead t calls for the reduction of an empty rule, and the stack is full. */
  predicate FullForEmptyRule(T: Tables, limit: nat, stack: seq<Entry>, t: nat) {
    var a := ShiftAction(T, TopCode(stack), t);
    T.IsReduce(a) && Rhs(T, a - T.MinReduce()) == [] && |stack| == limit
  }

  lemma DroppedPush(log: seq<Event>, ev: Event)
    ensures DroppedIn(log + [ev]) == DroppedIn(log) + if ev.Dropped? then multiset{ev.e} else multiset{}
  {
    LogPush(log, ev);
  }

  lemma {:induction false} DestroyDropsNothing(log: seq<Event>, stack: seq<Entry>)
    ensures DroppedIn(log + DestroyLog(stack)) == DroppedIn(log)
    decreases |stack|
  {
    hide DroppedIn;
    if stack == [] {
      assert log + DestroyLog(stack) == log;
    } else {
      var ev := Destroyed(stack[|stack| - 1]);
      DroppedPush(log, ev);
      DestroyDropsNothing(log + [ev], stack[..|stack| - 1]);
      DestroyLogStep(log, stack);
    }
  }

  lemma ShiftDropsNothing(T: Tables, limit: nat, cfg: Config, a: nat, major: nat, token: Token)
    ensures DroppedIn(ShiftStep(T, limit, cfg, a, major, token).log) == DroppedIn(cfg.log)
  {
    hide DroppedIn, DestroyLog;
    if |cfg.stack| >= limit {
      DestroyDropsNothing(cfg.log, cfg.stack);
      DroppedPush(cfg.log + DestroyLog(cfg.stack), Overflowed(false));
    } else {
      DroppedPush(cfg.log, Shifted(Entry(T.Stored(a), major, Leaf(token))));
    }
  }

  /** A reduction drops the top entry if it is by an empty rule on a full stack. */
  lemma ReduceDrops(T: Tables, limit: nat, cfg: Config, r: nat)
    requires 1 <= limit && |Rhs(T, r)| <= |cfg.stack| && Goto(T, cfg.stack, r).Some?
    ensures var next := ReduceStep(T, limit, cfg, r);
      if |Rhs(T, r)| == 0 && |cfg.stack| >= limit
      then next.stack == [] && DroppedIn(next.log) == DroppedIn(cfg.log) + multiset{cfg.stack[|cfg.stack| - 1]}
      else DroppedIn(next.log) == DroppedIn(cfg.log)
  {
    hide DroppedIn, DestroyLog, LhsEntry;
    var keep := |cfg.stack| - |Rhs(T, r)|;
    if |Rhs(T, r)| == 0 && |cfg.stack| >= limit {
      var top := |cfg.stack| - 1;
      DroppedPush(cfg.log, Dropped(cfg.stack[top]));
      DestroyDropsNothing(cfg.log + [Dropped(cfg.stack[top])], cfg.stack[..top]);
      DroppedPush(cfg.log + [Dropped(cfg.stack[top])] + DestroyLog(cfg.stack[..top]), Overflowed(true));
    } else if Goto(T, cfg.stack, r).value < T.MinReduce() {
      DroppedPush(cfg.log, Reduced(r, cfg.stack[keep..], LhsEntry(T, cfg.stack, r)));
    } else {
      DroppedPush(cfg.log, Accepted(r, cfg.stack[keep..]));
    }
  }

  /** What one call drops: the top entry of its last round, if that round finds the stack full
      for an empty rule. */
  function DropsOfCall(T: Tables, C: Certificate, limit: nat, cfg: Config, major: nat, token: Token): multiset<Entry>
    requires Inv(T, C, limit, cfg.stack) && major < T.nTerminal
  {
    var rounds := Rounds(T, C, limit, cfg, major, token);
    var last := rounds[|rounds| - 1].stack;
    if FullForEmptyRule(T, limit, last, major) && last != [] then multiset{last[|last| - 1]} else multiset{}
  }

  lemma StepDrops(T: Tables, C: Certificate, limit: nat, cfg: Config, major: nat, token: Token)
    requires Inv(T, C, limit, cfg.stack) && major < T.nTerminal
    ensures var full := FullForEmptyRule(T, limit, cfg.stack, major);
      var a := ShiftAction(T, TopCode(cfg.stack), major);
      && (full ==> T.IsReduce(a) && cfg.stack != [])
      && (T.IsReduce(a) ==>
            && 1 <= limit && |Rhs(T, a - T.MinReduce())| <= |cfg.stack| && Goto(T, cfg.stack, a - T.MinReduce()).Some?
            && var next := ReduceStep(T, limit, cfg, a - T.MinReduce());
            && (full ==> next.stack == [])
            && DroppedIn(next.log)
               == DroppedIn(cfg.log) + if full then multiset{cfg.stack[|cfg.stack| - 1]} else multiset{})
  {
    hide WellFormed, Linked, Room, Ready, Edge, ReduceStep, ShiftStep, Goto, ShiftAction, DroppedIn, Feed;
    FeedUnfolds(T, C, limit, cfg, major, token);
    var a := ShiftAction(T, TopCode(cfg.stack), major);
    if T.IsReduce(a) {
      ReduceDrops(T, limit, cfg, a - T.MinReduce());
    }
  }

  /** What the last round of a call drops. */
  lemma LastRoundDrops(T: Tables, C: Certificate, limit: nat, cfg: Config, major: nat, token: Token)
    requires Inv(T, C, limit, cfg.stack) && major < T.nTerminal
    requires NextRound(T, C, limit, cfg, major, token).None?
    ensures var full := FullForEmptyRule(T, limit, cfg.stack, major);
      && (full ==> cfg.stack != [])
      && DroppedIn(Feed(T, C, limit, cfg, major, token).log)
         == DroppedIn(cfg.log) + if full then multiset{cfg.stack[|cfg.stack| - 1]} else multiset{}
  {
    hide WellFormed, Linked, Inv, Weight, Room, Ready, Edge, ReduceStep, ShiftStep, Goto, ShiftAction, DroppedIn;
    hide FullForEmptyRule, DestroyLog;
    FeedUnfolds(T, C, limit, cfg, major, token);
    StepDrops(T, C, limit, cfg, major, token);
    var a := ShiftAction(T, TopCode(cfg.stack), major);
    if a < T.MinReduce() {
      ShiftDropsNothing(T, limit, cfg, a, major, token);
      DroppedPush(ShiftStep(T, limit, cfg, a, major, token).log, Discarded(major, token));
    } else if a < T.ErrorAction() {
      DroppedPush(ReduceStep(T, limit, cfg, a - T.MinReduce()).log, Discarded(major, token));
    } else {
      DroppedPush(cfg.log, Rejected(major, token));
    }
  }

  /** A round after which the call goes on drops nothing. */
  lemma EarlierRoundDrops(T: Tables, C: Certificate, limit: nat, cfg: Config, major: nat, token: Token)
    requires Inv(T, C, limit, cfg.stack) && major < T.nTerminal
    requires NextRound(T, C, limit, cfg, major, token).Some?
    ensures !FullForEmptyRule(T, limit, cfg.stack, major)
    ensures DroppedIn(NextRound(T, C, limit, cfg, major, token).value.log) == DroppedIn(cfg.log)
  {
    hide Inv, Room, Ready, Edge, ReduceStep, ShiftStep, Goto, ShiftAction, DroppedIn, FullForEmptyRule, Feed;
    StepDrops(T, C, limit, cfg, major, token);
  }

  lemma {:induction false} CallDrops(T: Tables, C: Certificate, limit: nat, cfg: Config, major: nat, token: Token)
    requires Inv(T, C, limit, cfg.stack) && major < T.nTerminal
    ensures DroppedIn(Feed(T, C, limit, cfg, major, token).log)
         == DroppedIn(cfg.log) + DropsOfCall(T, C, limit, cfg, major, token)
    decreases Room(C, limit, cfg.stack)
  {
    hide Inv, Room, NextRound, Feed, DroppedIn, FullForEmptyRule;
    var next := NextRound(T, C, limit, cfg, major, token);
    if next.Some? {
      EarlierRoundDrops(T, C, limit, cfg, major, token);
      NextRoundKeepsInv(T, C, limit, cfg, major, token);
      CallDrops(T, C, limit, next.value, major, token);
    } else {
      LastRoundDrops(T, C, limit, cfg, major, token);
    }
  }

  lemma {:induction false} OnlyLastRoundIsFull(T: Tables, C: Certificate, limit: nat, cfg: Config, major: nat,
                                               token: Token, i: nat)
    requires Inv(T, C, limit, cfg.stack) && major < T.nTerminal
    requires i < |Rounds(T, C, limit, cfg, major, token)|
    requires FullForEmptyRule(T, limit, Rounds(T, C, limit, cfg, major, token)[i].stack, major)
    ensures i == |Rounds(T, C, limit, cfg, major, token)| - 1
    ensures Rounds(T, C, limit, cfg, major, token)[i].stack != []
    decreases i
  {
    hide Inv, Room, NextRound, Feed, DroppedIn, FullForEmptyRule;
    var next := NextRound(T, C, limit, cfg, major, token);
    if next.Some? {
      EarlierRoundDrops(T, C, limit, cfg, major, token);
      NextRoundKeepsInv(T, C, limit, cfg, major, token);
      OnlyLastRoundIsFull(T, C, limit, next.value, major, token, i - 1);
    } else {
      LastRoundDrops(T, C, limit, cfg, major, token);
    }
  }

  /** A call drops an entry without destroying it if and only if one of its rounds finds the
      stack full for an empty rule; that round is the last, and the entry its top. */
  lemma CallDropsExactly(T: Tables, C: Certificate, limit: nat, cfg: Config, major: nat, token: Token)
    requires Inv(T, C, limit, cfg.stack) && major < T.nTerminal
    ensures var rounds := Rounds(T, C, limit, cfg, major, token);
      var log := Feed(T, C, limit, cfg, major, token).log;
      && DroppedIn(log) == DroppedIn(cfg.log) + DropsOfCall(T, C, limit, cfg, major, token)
      && (DroppedIn(log) != DroppedIn(cfg.log) <==>
            exists i :: 0 <= i < |rounds| && FullForEmptyRule(T, limit, rounds[i].stack, major))
      && (forall i :: 0 <= i < |rounds| - 1 ==> !FullForEmptyRule(T, limit, rounds[i].stack, major))
  {
    hide Inv, Rounds, Feed, DroppedIn, FullForEmptyRule;
    CallDrops(T, C, limit, cfg, major, token);
    var rounds := Rounds(T, C, limit, cfg, major, token);
    forall i | 0 <= i < |rounds| && FullForEmptyRule(T, limit, rounds[i].stack, major)
      ensures i == |rounds| - 1 && rounds[i].stack != []
    {
      OnlyLastRoundIsFull(T, C, limit, cfg, major, token, i);
    }
  }

  /** What the calls of a run drop, call by call. */
  function DropsOfRun(T: Tables, C: Certificate, limit: nat, tokens: Input): multiset<Entry>
    requires WellFormed(T, C) && 1 <= limit && Tokens(T, tokens)
    decreases |tokens|
  {
    hide WellFormed, Inv;
    InitialInv(T, C, limit);
    if tokens == [] then multiset{}
    else
      var front, last := tokens[..|tokens| - 1], tokens[|tokens| - 1];
      DropsOfRun(T, C, limit, front) + DropsOfCall(T, C, limit, FreshRun(T, C, limit, front), last.0, last.1)
  }

  lemma {:induction false} RunDropsExactly(T: Tables, C: Certificate, limit: nat, tokens: Input)
    requires WellFormed(T, C) && 1 <= limit && Tokens(T, tokens)
    ensures DroppedIn(FreshRun(T, C, limit, tokens).log) == DropsOfRun(T, C, limit, tokens)
    decreases |tokens|
  {
    hide WellFormed, Inv, Feed, DropsOfCall, Rounds, FullForEmptyRule;
    InitialInv(T, C, limit);
    if tokens != [] {
      var front, last := tokens[..|tokens| - 1], tokens[|tokens| - 1];
      RunDropsExactly(T, C, limit, front);
      CallDropsExactly(T, C, limit, FreshRun(T, C, limit, front), last.0, last.1);
    }
  }

  /** Freeing the parser after any run leaves every entry ever pushed accounted for exactly
      once: as part of a right side, as destroyed, or as dropped.  Dropped are exactly the top
      entries of the rounds that find the stack full for an empty rule. */
  lemma EntriesAreConserved(T: Tables, C: Certificate, limit: nat, tokens: Input)
    requires WellFormed(T, C) && 1 <= limit && Tokens(T, tokens)
    ensures var cfg := FreshRun(T, C, limit, tokens);
      var log := cfg.log + DestroyLog(cfg.stack);
      && Pushed(log) == Consumed(log) + DestroyedIn(log) + DroppedIn(log)
      && DroppedIn(log) == DropsOfRun(T, C, limit, tokens)
      && |DroppedIn(log)| == EmptyRuleOverflows(log)
      && Lawful(limit, log) && Replay(log) == []
  {
    hide WellFormed, Explained, DropsOfRun, DroppedIn;
    var cfg := FreshRun(T, C, limit, tokens);
    FreshRunIsRecorded(T, C, limit, tokens);
    DestroyIsLawful(limit, cfg.log, cfg.stack);
    DestroyCounts(cfg.log, cfg.stack);
    DestroyDropsNothing(cfg.log, cfg.stack);
    RunDropsExactly(T, C, limit, tokens);
    Balance(limit, cfg.log + DestroyLog(cfg.stack));
  }

  // ----- every token is dealt with once -----

  /** The tokens dealt with, call by call, each with its type. */
  function Handled(log: seq<Event>): Input {
    if log == [] then []
    else Handled(log[..|log| - 1]) + HandledBy(log[|log| - 1])
  }

  function HandledBy(ev: Event): Input {
    match ev
    case Shifted(e) => if e.minor.Leaf? then [(e.major, e.minor.token)] else []
    case Rejected(t, token) => [(t, token)]
    case Discarded(t, token) => [(t, token)]
    case _ => []
  }

  lemma HandledPush(log: seq<Event>, ev: Event)
    ensures Handled(log + [ev]) == Handled(log) + HandledBy(ev)
  {
    LogPush(log, ev);
  }

  lemma {:induction false} DestroyHandlesNothing(log: seq<Event>, stack: seq<Entry>)
    ensures Handled(log + DestroyLog(stack)) == Handled(log)
    decreases |stack|
  {
    hide Handled;
    if stack == [] {
      assert log + DestroyLog(stack) == log;
    } else {
      var ev := Destroyed(stack[|stack| - 1]);
      HandledPush(log, ev);
      DestroyHandlesNothing(log + [ev], stack[..|stack| - 1]);
      DestroyLogStep(log, stack);
    }
  }

  lemma ReduceHandlesNothing(T: Tables, limit: nat, cfg: Config, r: nat)
    requires 1 <= limit && |Rhs(T, r)| <= |cfg.stack| && Goto(T, cfg.stack, r).Some?
    ensures Handled(ReduceStep(T, limit, cfg, r).log) == Handled(cfg.log)
  {
    hide Handled, DestroyLog, LhsEntry;
    var keep := |cfg.stack| - |Rhs(T, r)|;
    if |Rhs(T, r)| == 0 && |cfg.stack| >= limit {
      var top := |cfg.stack| - 1;
      HandledPush(cfg.log, Dropped(cfg.stack[top]));
      DestroyHandlesNothing(cfg.log + [Dropped(cfg.stack[top])], cfg.stack[..top]);
      HandledPush(cfg.log + [Dropped(cfg.stack[top])] + DestroyLog(cfg.stack[..top]), Overflowed(true));
    } else if Goto(T, cfg.stack, r).value < T.MinReduce() {
      HandledPush(cfg.log, Reduced(r, cfg.stack[keep..], LhsEntry(T, cfg.stack, r)));
    } else {
      HandledPush(cfg.log, Accepted(r, cfg.stack[keep..]));
    }
  }

  lemma ShiftOverflowHandlesNothing(T: Tables, limit: nat, cfg: Config, a: nat, major: nat, token: Token)
    requires |cfg.stack| >= limit
    ensures Handled(ShiftStep(T, limit, cfg, a, major, token).log) == Handled(cfg.log)
  {
    hide Handled, DestroyLog;
    DestroyHandlesNothing(cfg.log, cfg.stack);
    HandledPush(cfg.log + DestroyLog(cfg.stack), Overflowed(false));
  }

  /** A call deals with its token exactly once: it shifts it, rejects it, or, when the call
      ends at the base by accepting or overflowing, discards it. */
  lemma {:induction false} CallHandlesToken(T: Tables, C: Certificate, limit: nat, cfg: Config, major: nat,
                                            token: Token)
    requires Inv(T, C, limit, cfg.stack) && major < T.nTerminal
    ensures Handled(Feed(T, C, limit, cfg, major, token).log) == Handled(cfg.log) + [(major, token)]
    decreases Room(C, limit, cfg.stack)
  {
    hide Inv, Room, Ready, Edge, Handled, ReduceStep;
    FeedUnfolds(T, C, limit, cfg, major, token);
    var a := ShiftAction(T, TopCode(cfg.stack), major);
    if a < T.MinReduce() {
      var next := ShiftStep(T, limit, cfg, a, major, token);
      if |cfg.stack| >= limit {
        ShiftOverflowHandlesNothing(T, limit, cfg, a, major, token);
        HandledPush(next.log, Discarded(major, token));
      } else {
        HandledPush(cfg.log, Shifted(Entry(T.Stored(a), major, Leaf(token))));
      }
    } else if a < T.ErrorAction() {
      var next := ReduceStep(T, limit, cfg, a - T.MinReduce());
      ReduceHandlesNothing(T, limit, cfg, a - T.MinReduce());
      if next.stack == [] {
        HandledPush(next.log, Discarded(major, token));
      } else {
        FeedUnfolds(T, C, limit, next, major, token);
        CallHandlesToken(T, C, limit, next, major, token);
      }
    } else {
      HandledPush(cfg.log, Rejected(major, token));
    }
  }

  /** Over a whole run the tokens dealt with are the input, in order. */
  lemma {:induction false} RunHandlesInput(T: Tables, C: Certificate, limit: nat, tokens: Input)
    requires WellFormed(T, C) && 1 <= limit && Tokens(T, tokens)
    ensures Handled(FreshRun(T, C, limit, tokens).log) == tokens
    decreases |tokens|
  {
    hide WellFormed, Inv;
    InitialInv(T, C, limit);
    if tokens != [] {
      var front, last := tokens[..|tokens| - 1], tokens[|tokens| - 1];
      assert tokens == front + [(last.0, last.1)];
      RunHandlesInput(T, C, limit, front);
      CallHandlesToken(T, C, limit, FreshRun(T, C, limit, front), last.0, last.1);
    }
  }
}

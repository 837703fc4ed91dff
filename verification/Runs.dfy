/** What holds after every run: acceptance is sound, entries are conserved, work is bounded. */
module Runs {
  import opened Tables
  import opened Grammar
  import opened Machine
  import opened Driver
  import opened History

  // ----- semantic values -----

  /** The tokens a value was built from, left to right. */
  function Frontier(m: Minor): seq<Token>
    decreases m, 1
  {
    match m
    case Leaf(t) => [t]
    case Built(_, args) => FrontierAll(args)
  }

  function FrontierAll(ms: seq<Minor>): seq<Token>
    decreases ms, 0
  {
    if ms == [] then [] else FrontierAll(ms[..|ms| - 1]) + Frontier(ms[|ms| - 1])
  }

  /** The rules whose actions built a value, in the order they ran. */
  function Actions(m: Minor): seq<nat>
    decreases m, 1
  {
    match m
    case Leaf(_) => []
    case Built(r, args) => ActionsAll(args) + [r]
  }

  function ActionsAll(ms: seq<Minor>): seq<nat>
    decreases ms, 0
  {
    if ms == [] then [] else ActionsAll(ms[..|ms| - 1]) + Actions(ms[|ms| - 1])
  }

  lemma SplitLast<A>(s: seq<A>, t: seq<A>)
    requires t != []
    ensures (s + t)[..|s + t| - 1] == s + t[..|t| - 1]
    ensures (s + t)[|s + t| - 1] == t[|t| - 1]
  {
  }

  lemma {:induction false} FrontierConcat(ms: seq<Minor>, ns: seq<Minor>)
    ensures FrontierAll(ms + ns) == FrontierAll(ms) + FrontierAll(ns)
    decreases |ns|
  {
    hide Frontier;
    if ns == [] {
      assert ms + ns == ms;
    } else {
      SplitLast(ms, ns);
      FrontierConcat(ms, ns[..|ns| - 1]);
    }
  }

  lemma {:induction false} ActionsConcat(ms: seq<Minor>, ns: seq<Minor>)
    ensures ActionsAll(ms + ns) == ActionsAll(ms) + ActionsAll(ns)
    decreases |ns|
  {
    hide Actions;
    if ns == [] {
      assert ms + ns == ms;
    } else {
      SplitLast(ms, ns);
      ActionsConcat(ms, ns[..|ns| - 1]);
    }
  }

  lemma ForestPush(ms: seq<Minor>, m: Minor)
    ensures FrontierAll(ms + [m]) == FrontierAll(ms) + Frontier(m)
    ensures ActionsAll(ms + [m]) == ActionsAll(ms) + Actions(m)
  {
    assert (ms + [m])[..|ms + [m]| - 1] == ms;
  }

  /** The values on the stack were built from the tokens shifted since the base, by the
      actions of the rules fired since the base. */
  predicate Forest(cfg: Config) {
    && FrontierAll(Minors(cfg.stack)) == FrontierAll(Minors(ShiftedSince(cfg.log)))
    && ActionsAll(Minors(cfg.stack)) == FiredSince(cfg.log)
  }

  lemma ForestShift(cfg: Config, e: Entry)
    requires Forest(cfg) && e.minor.Leaf?
    ensures Forest(Config(cfg.stack + [e], cfg.log + [Shifted(e)]))
  {
    LogPush(cfg.log, Shifted(e));
    assert Minors(cfg.stack + [e]) == Minors(cfg.stack) + [e.minor];
    assert Minors(ShiftedSince(cfg.log) + [e]) == Minors(ShiftedSince(cfg.log)) + [e.minor];
    ForestPush(Minors(cfg.stack), e.minor);
    ForestPush(Minors(ShiftedSince(cfg.log)), e.minor);
  }

  lemma ForestReduce(log: seq<Event>, below: seq<Entry>, rhs: seq<Entry>, r: nat, e: Entry)
    requires Forest(Config(below + rhs, log)) && e.minor == Built(r, Minors(rhs))
    ensures Forest(Config(below + [e], log + [Reduced(r, rhs, e)]))
  {
    LogPush(log, Reduced(r, rhs, e));
    assert Minors(below + rhs) == Minors(below) + Minors(rhs);
    assert Minors(below + [e]) == Minors(below) + [e.minor];
    FrontierConcat(Minors(below), Minors(rhs));
    ActionsConcat(Minors(below), Minors(rhs));
    ForestPush(Minors(below), e.minor);
  }

  // ----- the invariant of a run -----

  function Drops(log: seq<Event>): nat {
    if log == [] then 0
    else Drops(log[..|log| - 1]) + if log[|log| - 1].Dropped? then 1 else 0
  }

  function EmptyRuleOverflows(log: seq<Event>): nat {
    if log == [] then 0
    else EmptyRuleOverflows(log[..|log| - 1]) + if log[|log| - 1] == Overflowed(true) then 1 else 0
  }

  /** Accepting by rule r after `log` is right, and the work so far was bounded. */
  ghost predicate SoundAccept(T: Tables, C: Certificate, limit: nat, log: seq<Event>, r: nat) {
    && Sentence(T, Majors(ShiftedSince(log)), FiredSince(log) + [r])
    && |FiredSince(log)| + 1 <= C.k * |ShiftedSince(log)| + limit * C.wmax
  }

  ghost predicate AcceptsSound(T: Tables, C: Certificate, limit: nat, log: seq<Event>) {
    log == [] ||
    (&& AcceptsSound(T, C, limit, log[..|log| - 1])
     && (log[|log| - 1].Accepted? ==> SoundAccept(T, C, limit, log[..|log| - 1], log[|log| - 1].rule)))
  }

  ghost predicate Ledger(T: Tables, C: Certificate, limit: nat, log: seq<Event>) {
    && Lawful(limit, log)
    && AcceptsSound(T, C, limit, log)
  }

  ghost predicate Tied(T: Tables, C: Certificate, cfg: Config) {
    && Replay(cfg.log) == cfg.stack
    && Explained(T, C, cfg)
    && Forest(cfg)
    && |FiredSince(cfg.log)| <= C.k * |ShiftedSince(cfg.log)| + Weight(C, cfg.stack)
  }

  ghost predicate Recorded(T: Tables, C: Certificate, limit: nat, cfg: Config) {
    && Inv(T, C, limit, cfg.stack)
    && Ledger(T, C, limit, cfg.log)
    && Tied(T, C, cfg)
    && Drops(cfg.log) == EmptyRuleOverflows(cfg.log)
  }

  lemma BaseIsTied(T: Tables, C: Certificate, log: seq<Event>)
    requires Replay(log) == [] && ShiftedSince(log) == [] && FiredSince(log) == []
    ensures Tied(T, C, Config([], log))
  {
    BaseIsExplained(T, C, Config([], log));
  }

  lemma RecordedInitially(T: Tables, C: Certificate, limit: nat)
    requires WellFormed(T, C) && 1 <= limit
    ensures Recorded(T, C, limit, INITIAL)
  {
    BaseIsTied(T, C, []);
  }

  /** An event that touches nothing. */
  lemma NoteIsRecorded(T: Tables, C: Certificate, limit: nat, cfg: Config, ev: Event)
    requires Recorded(T, C, limit, cfg) && (ev.Discarded? || ev.Rejected?)
    ensures Recorded(T, C, limit, Note(cfg, ev))
  {
    hide Inv, SoundAccept, Yields, StackReads, ReadAs, Executed, Weight;
    LogPush(cfg.log, ev);
    var gamma, ys, rs :| Explains(T, C, cfg, gamma, ys, rs);
    assert Explains(T, C, Note(cfg, ev), gamma, ys, rs);
  }

  lemma ShiftIsTied(T: Tables, C: Certificate, cfg: Config, e: Entry)
    requires WellFormed(T, C) && Tied(T, C, cfg)
    requires e.major < T.nTerminal && Edge(T, C, TopCode(cfg.stack), e.stateno, e.major) && e.minor.Leaf?
    ensures Tied(T, C, Config(cfg.stack + [e], cfg.log + [Shifted(e)]))
  {
    hide Explained, Forest, Edge, WellFormed;
    LogPush(cfg.log, Shifted(e));
    ShiftIsExplained(T, C, cfg, e);
    ForestShift(cfg, e);
    assert Weight(C, cfg.stack + [e]) == Weight(C, cfg.stack) - C.k by {
      TerminalWeight(T, C, e.major);
      assert (cfg.stack + [e])[..|cfg.stack + [e]| - 1] == cfg.stack;
    }
    assert C.k * (|ShiftedSince(cfg.log)| + 1) == C.k * |ShiftedSince(cfg.log)| + C.k;
  }

  lemma TerminalWeight(T: Tables, C: Certificate, t: nat)
    requires WellFormed(T, C) && t < T.nTerminal
    ensures MajorWeight(C, t) == 0 - C.k
  {
  }

  lemma ShiftIsRecorded(T: Tables, C: Certificate, limit: nat, cfg: Config, e: Entry)
    requires Recorded(T, C, limit, cfg) && |cfg.stack| < limit
    requires e.major < T.nTerminal && Edge(T, C, TopCode(cfg.stack), e.stateno, e.major) && e.minor.Leaf?
    ensures Recorded(T, C, limit, Config(cfg.stack + [e], cfg.log + [Shifted(e)]))
  {
    hide SoundAccept, Tied, Edge, WellFormed;
    LogPush(cfg.log, Shifted(e));
    LinkedPush(T, C, cfg.stack, e);
    ShiftIsTied(T, C, cfg, e);
  }

  lemma ReduceIsTied(T: Tables, C: Certificate, cfg: Config, r: nat, e: Entry)
    requires WellFormed(T, C) && Tied(T, C, cfg) && Ready(T, C, cfg.stack, r)
    requires e.major == Lhs(T, r) && e.minor == Built(r, Minors(cfg.stack[|cfg.stack| - |Rhs(T, r)|..]))
    requires Edge(T, C, StateAt(cfg.stack, |cfg.stack| - |Rhs(T, r)|), e.stateno, e.major)
    ensures var keep := |cfg.stack| - |Rhs(T, r)|;
      Tied(T, C, Config(cfg.stack[..keep] + [e], cfg.log + [Reduced(r, cfg.stack[keep..], e)]))
  {
    hide Explained, Forest, Edge, WellFormed, Spells, Weight;
    var keep := |cfg.stack| - |Rhs(T, r)|;
    LogPush(cfg.log, Reduced(r, cfg.stack[keep..], e));
    ReduceIsExplained(T, C, cfg, r, e);
    assert cfg.stack == cfg.stack[..keep] + cfg.stack[keep..];
    ForestReduce(cfg.log, cfg.stack[..keep], cfg.stack[keep..], r, e);
    PushGains(T, C, cfg.stack, r, e);
  }

  /** Popping everything, top first. */
  lemma {:induction false} DestroyIsLawful(limit: nat, log: seq<Event>, stack: seq<Entry>)
    requires Lawful(limit, log) && Replay(log) == stack
    ensures Lawful(limit, log + DestroyLog(stack)) && Replay(log + DestroyLog(stack)) == []
    decreases |stack|
  {
    if stack == [] {
      assert log + DestroyLog(stack) == log;
    } else {
      var ev := Destroyed(stack[|stack| - 1]);
      PopIsLawful(limit, log, stack);
      DestroyIsLawful(limit, log + [ev], stack[..|stack| - 1]);
      DestroyLogStep(log, stack);
    }
  }

  lemma PopIsLawful(limit: nat, log: seq<Event>, stack: seq<Entry>)
    requires Lawful(limit, log) && Replay(log) == stack && stack != []
    ensures var ev := Destroyed(stack[|stack| - 1]);
      Lawful(limit, log + [ev]) && Replay(log + [ev]) == stack[..|stack| - 1]
  {
    LogPush(log, Destroyed(stack[|stack| - 1]));
  }

  lemma {:induction false} DestroyCounts(log: seq<Event>, stack: seq<Entry>)
    ensures Drops(log + DestroyLog(stack)) == Drops(log)
    ensures EmptyRuleOverflows(log + DestroyLog(stack)) == EmptyRuleOverflows(log)
    decreases |stack|
  {
    if stack == [] {
      assert log + DestroyLog(stack) == log;
    } else {
      var ev := Destroyed(stack[|stack| - 1]);
      LogPush(log, ev);
      DestroyCounts(log + [ev], stack[..|stack| - 1]);
      DestroyLogStep(log, stack);
    }
  }

  lemma DestroyLogStep(log: seq<Event>, stack: seq<Entry>)
    requires stack != []
    ensures log + DestroyLog(stack) == log + [Destroyed(stack[|stack| - 1])] + DestroyLog(stack[..|stack| - 1])
  {
    Assoc(log, [Destroyed(stack[|stack| - 1])], DestroyLog(stack[..|stack| - 1]));
  }

  lemma Assoc<A>(a: seq<A>, b: seq<A>, c: seq<A>)
    ensures a + b + c == a + (b + c)
  {
  }

  lemma {:induction false} DestroyKeepsAccepts(T: Tables, C: Certificate, limit: nat, log: seq<Event>,
                                               stack: seq<Entry>)
    requires AcceptsSound(T, C, limit, log)
    ensures AcceptsSound(T, C, limit, log + DestroyLog(stack))
    decreases |stack|
  {
    hide SoundAccept;
    if stack == [] {
      assert log + DestroyLog(stack) == log;
    } else {
      var ev := Destroyed(stack[|stack| - 1]);
      LogPush(log, ev);
      DestroyKeepsAccepts(T, C, limit, log + [ev], stack[..|stack| - 1]);
      DestroyLogStep(log, stack);
    }
  }

  lemma OverflowIsRecorded(T: Tables, C: Certificate, limit: nat, log: seq<Event>, stack: seq<Entry>, onEmptyRule: bool)
    requires WellFormed(T, C) && 1 <= limit
    requires Ledger(T, C, limit, log) && Replay(log) == stack
    requires Drops(log) == EmptyRuleOverflows(log) + if onEmptyRule then 1 else 0
    ensures Recorded(T, C, limit, Config([], log + DestroyLog(stack) + [Overflowed(onEmptyRule)]))
  {
    hide WellFormed, Lawful, AcceptsSound, Tied, Drops, EmptyRuleOverflows, Replay, DestroyLog;
    DestroyIsLawful(limit, log, stack);
    DestroyCounts(log, stack);
    DestroyKeepsAccepts(T, C, limit, log, stack);
    OverflowEvent(T, C, limit, log + DestroyLog(stack), onEmptyRule);
  }

  lemma OverflowEvent(T: Tables, C: Certificate, limit: nat, log: seq<Event>, onEmptyRule: bool)
    requires Ledger(T, C, limit, log) && Replay(log) == []
    ensures var log' := log + [Overflowed(onEmptyRule)];
      && Ledger(T, C, limit, log')
      && Tied(T, C, Config([], log'))
      && Drops(log') == Drops(log)
      && EmptyRuleOverflows(log') == EmptyRuleOverflows(log) + if onEmptyRule then 1 else 0
  {
    hide SoundAccept, Tied;
    LogPush(log, Overflowed(onEmptyRule));
    BaseIsTied(T, C, log + [Overflowed(onEmptyRule)]);
  }

  lemma ShiftOverflowIsRecorded(T: Tables, C: Certificate, limit: nat, cfg: Config)
    requires Recorded(T, C, limit, cfg)
    ensures Recorded(T, C, limit, Config([], cfg.log + DestroyLog(cfg.stack) + [Overflowed(false)]))
  {
    hide WellFormed, Ledger, Explained, Forest;
    OverflowIsRecorded(T, C, limit, cfg.log, cfg.stack, false);
  }

  lemma EmptyRuleOverflowIsRecorded(T: Tables, C: Certificate, limit: nat, cfg: Config)
    requires Recorded(T, C, limit, cfg) && |cfg.stack| == limit
    ensures var top := |cfg.stack| - 1;
      var log := cfg.log + [Dropped(cfg.stack[top])] + DestroyLog(cfg.stack[..top]) + [Overflowed(true)];
      Recorded(T, C, limit, Config([], log))
  {
    hide WellFormed, SoundAccept, Explained, Forest;
    var top := |cfg.stack| - 1;
    LogPush(cfg.log, Dropped(cfg.stack[top]));
    OverflowIsRecorded(T, C, limit, cfg.log + [Dropped(cfg.stack[top])], cfg.stack[..top], true);
  }

  lemma AcceptIsSound(T: Tables, C: Certificate, limit: nat, cfg: Config, r: nat)
    requires WellFormed(T, C) && 1 <= limit && Tied(T, C, cfg) && Ready(T, C, cfg.stack, r)
    requires |cfg.stack| == |Rhs(T, r)| && Lhs(T, r) == T.start
    ensures SoundAccept(T, C, limit, cfg.log, r)
  {
    hide WellFormed, Sentence, Explained, Forest, Spells, Weight;
    AcceptIsSentence(T, C, cfg, r);
    var e := Entry(0, Lhs(T, r), Leaf(Token(0, 0)));
    PushGains(T, C, cfg.stack, r, e);
    WeightBound(T, C, cfg.stack[..0] + [e], limit);
  }

  lemma AcceptIsRecorded(T: Tables, C: Certificate, limit: nat, cfg: Config, r: nat)
    requires Recorded(T, C, limit, cfg) && Ready(T, C, cfg.stack, r)
    requires |cfg.stack| == |Rhs(T, r)| && Lhs(T, r) == T.start
    ensures Recorded(T, C, limit, Config([], cfg.log + [Accepted(r, cfg.stack)]))
  {
    hide WellFormed, SoundAccept, Tied, Ready;
    LogPush(cfg.log, Accepted(r, cfg.stack));
    TiedReplays(T, C, cfg);
    AcceptIsSound(T, C, limit, cfg, r);
    BaseIsTied(T, C, cfg.log + [Accepted(r, cfg.stack)]);
  }

  lemma TiedReplays(T: Tables, C: Certificate, cfg: Config)
    requires Tied(T, C, cfg)
    ensures Replay(cfg.log) == cfg.stack
  {
  }

  // ----- steps, calls and runs -----

  lemma ReduceIsRecorded(T: Tables, C: Certificate, limit: nat, cfg: Config, r: nat, e: Entry)
    requires Recorded(T, C, limit, cfg) && Ready(T, C, cfg.stack, r)
    requires e.major == Lhs(T, r) && e.minor == Built(r, Minors(cfg.stack[|cfg.stack| - |Rhs(T, r)|..]))
    requires Edge(T, C, StateAt(cfg.stack, |cfg.stack| - |Rhs(T, r)|), e.stateno, e.major)
    requires 0 <= |cfg.stack| - |Rhs(T, r)| < limit
    ensures var keep := |cfg.stack| - |Rhs(T, r)|;
      Recorded(T, C, limit, Config(cfg.stack[..keep] + [e], cfg.log + [Reduced(r, cfg.stack[keep..], e)]))
  {
    hide Lawful, AcceptsSound, Drops, EmptyRuleOverflows, Replay, Tied, WellFormed, Ready, Edge, Linked;
    var keep := |cfg.stack| - |Rhs(T, r)|;
    TiedReplays(T, C, cfg);
    ReduceEvent(T, C, limit, cfg.log, r, cfg.stack, keep, e);
    ReduceIsTied(T, C, cfg, r, e);
    LinkedPrefix(T, C, cfg.stack, keep);
    TakeTop(cfg.stack, keep);
    LinkedPush(T, C, cfg.stack[..keep], e);
  }

  lemma ReduceEvent(T: Tables, C: Certificate, limit: nat, log: seq<Event>, r: nat, stack: seq<Entry>, keep: nat,
                    e: Entry)
    requires Ledger(T, C, limit, log) && Replay(log) == stack && keep <= |stack|
    ensures var log' := log + [Reduced(r, stack[keep..], e)];
      && Ledger(T, C, limit, log')
      && Drops(log') == Drops(log)
      && EmptyRuleOverflows(log') == EmptyRuleOverflows(log)
  {
    hide SoundAccept;
    LogPush(log, Reduced(r, stack[keep..], e));
  }

  lemma ReduceStepIsRecorded(T: Tables, C: Certificate, limit: nat, cfg: Config, r: nat)
    requires Recorded(T, C, limit, cfg) && Inv(T, C, limit, cfg.stack) && Ready(T, C, cfg.stack, r)
    ensures Goto(T, cfg.stack, r).Some? && Recorded(T, C, limit, ReduceStep(T, limit, cfg, r))
  {
    hide Recorded, WellFormed, Spells, Linked, DestroyLog, Reads, Advances;
    ReduceKeepsInv(T, C, limit, cfg, r);
    var keep := |cfg.stack| - |Rhs(T, r)|;
    if |Rhs(T, r)| == 0 && |cfg.stack| >= limit {
      EmptyRuleOverflowIsRecorded(T, C, limit, cfg);
    } else if Goto(T, cfg.stack, r).value < T.MinReduce() {
      GotoFits(T, C, cfg.stack, keep, r);
      ReduceIsRecorded(T, C, limit, cfg, r, LhsEntry(T, cfg.stack, r));
    } else {
      assert cfg.stack[keep..] == cfg.stack;
      AcceptIsRecorded(T, C, limit, cfg, r);
    }
  }

  lemma {:induction false} FeedIsRecorded(T: Tables, C: Certificate, limit: nat, cfg: Config, major: nat, token: Token)
    requires Recorded(T, C, limit, cfg) && Inv(T, C, limit, cfg.stack) && major < T.nTerminal
    ensures Recorded(T, C, limit, Feed(T, C, limit, cfg, major, token))
    decreases Room(C, limit, cfg.stack)
  {
    hide Recorded, Inv, Ready, Edge, Room, ShiftAction, ReduceStep, DestroyLog, Goto;
    FeedUnfolds(T, C, limit, cfg, major, token);
    var a := ShiftAction(T, TopCode(cfg.stack), major);
    if a < T.MinReduce() {
      var next := ShiftStep(T, limit, cfg, a, major, token);
      if |cfg.stack| >= limit {
        ShiftOverflowIsRecorded(T, C, limit, cfg);
        NoteIsRecorded(T, C, limit, next, Discarded(major, token));
      } else {
        ShiftIsRecorded(T, C, limit, cfg, Entry(T.Stored(a), major, Leaf(token)));
      }
    } else if a < T.ErrorAction() {
      ReduceStepIsRecorded(T, C, limit, cfg, a - T.MinReduce());
      var next := ReduceStep(T, limit, cfg, a - T.MinReduce());
      if next.stack == [] {
        NoteIsRecorded(T, C, limit, next, Discarded(major, token));
      } else {
        FeedUnfolds(T, C, limit, next, major, token);
        FeedIsRecorded(T, C, limit, next, major, token);
      }
    } else {
      NoteIsRecorded(T, C, limit, cfg, Rejected(major, token));
    }
  }

  lemma {:induction false} RunIsRecorded(T: Tables, C: Certificate, limit: nat, cfg: Config, tokens: seq<(nat, Token)>)
    requires Recorded(T, C, limit, cfg) && Inv(T, C, limit, cfg.stack)
    requires forall i :: 0 <= i < |tokens| ==> tokens[i].0 < T.nTerminal
    ensures Recorded(T, C, limit, Run(T, C, limit, cfg, tokens))
    decreases |tokens|
  {
    hide Recorded, Inv;
    if tokens != [] {
      var front, last := tokens[..|tokens| - 1], tokens[|tokens| - 1];
      RunIsRecorded(T, C, limit, cfg, front);
      FeedIsRecorded(T, C, limit, Run(T, C, limit, cfg, front), last.0, last.1);
    }
  }
}

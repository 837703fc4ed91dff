/** What a log says about a run, and the facts that tie it to the stack. */
module History {
  import opened Tables
  import opened Grammar
  import opened Machine

  // ----- reading a log -----

  /** The entries shifted since the stack last stood at its base by accepting or overflowing. */
  function ShiftedSince(log: seq<Event>): seq<Entry> {
    if log == [] then []
    else
      var before := ShiftedSince(log[..|log| - 1]);
      match log[|log| - 1]
      case Shifted(e) => before + [e]
      case Accepted(_, _) => []
      case Overflowed(_) => []
      case _ => before
  }

  /** The rules reduced since then, in order. */
  function FiredSince(log: seq<Event>): seq<nat> {
    if log == [] then []
    else
      var before := FiredSince(log[..|log| - 1]);
      match log[|log| - 1]
      case Reduced(r, _, _) => before + [r]
      case Accepted(_, _) => []
      case Overflowed(_) => []
      case _ => before
  }

  function Majors(es: seq<Entry>): (ms: seq<nat>)
    ensures |ms| == |es| && forall i :: 0 <= i < |es| ==> ms[i] == es[i].major
  {
    seq(|es|, i requires 0 <= i < |es| => es[i].major)
  }

  lemma MajorsPush(es: seq<Entry>, e: Entry)
    ensures Majors(es + [e]) == Majors(es) + [e.major]
  {
  }

  /** The stack that a log describes: what was pushed and has not left. */
  function Replay(log: seq<Event>): seq<Entry> {
    if log == [] then []
    else
      var before := Replay(log[..|log| - 1]);
      match log[|log| - 1]
      case Shifted(e) => before + [e]
      case Reduced(_, rhs, e) => Cut(before, |rhs|) + [e]
      case Accepted(_, rhs) => Cut(before, |rhs|)
      case Destroyed(_) => Cut(before, 1)
      case Dropped(_) => Cut(before, 1)
      case _ => before
  }

  function Cut(s: seq<Entry>, n: nat): seq<Entry> {
    if n <= |s| then s[..|s| - n] else []
  }

  /** Every event finds on top of the stack what it takes from it.  Entries are dropped
      only from a full stack, and an overflow leaves nothing. */
  predicate Lawful(limit: nat, log: seq<Event>) {
    log == [] ||
    var before := Replay(log[..|log| - 1]);
    && Lawful(limit, log[..|log| - 1])
    && match log[|log| - 1]
       case Reduced(_, rhs, _) => IsTop(before, rhs)
       case Accepted(_, rhs) => before == rhs
       case Destroyed(e) => IsTop(before, [e])
       case Dropped(e) => IsTop(before, [e]) && |before| == limit
       case Overflowed(_) => before == []
       case _ => true
  }

  predicate IsTop(s: seq<Entry>, top: seq<Entry>) {
    |top| <= |s| && s[|s| - |top|..] == top
  }

  // ----- the tie between log and stack -----

  ghost predicate Explains(T: Tables, C: Certificate, cfg: Config, gamma: seq<nat>, ys: seq<nat>, rs: seq<nat>) {
    && StackReads(T, C, cfg.stack, gamma)
    && ReadAs(T, Majors(ShiftedSince(cfg.log)), ys)
    && Executed(T, rs) == Reverse(FiredSince(cfg.log))
    && Yields(T, gamma, rs, ys)
  }

  /** gamma reads each entry as the symbol that its state expects. */
  predicate StackReads(T: Tables, C: Certificate, stack: seq<Entry>, gamma: seq<nat>) {
    |gamma| == |stack| && forall i :: 0 <= i < |gamma| ==> SymbolFits(T, C, stack[i].stateno, gamma[i])
  }

  lemma StackReadsPush(T: Tables, C: Certificate, stack: seq<Entry>, gamma: seq<nat>, e: Entry, s: nat)
    requires StackReads(T, C, stack, gamma) && SymbolFits(T, C, e.stateno, s)
    ensures StackReads(T, C, stack + [e], gamma + [s])
  {
  }

  lemma StackReadsTake(T: Tables, C: Certificate, stack: seq<Entry>, n: nat, gamma: seq<nat>)
    requires n <= |stack| && StackReads(T, C, stack, gamma)
    ensures StackReads(T, C, stack[..n], gamma[..n])
    ensures gamma == gamma[..n] + gamma[n..]
  {
  }

  predicate SymbolFits(T: Tables, C: Certificate, code: nat, s: nat) {
    Matches(SymOf(T, C, code), s)
  }

  /** The symbols on the stack, once read, derive the tokens shifted since the base by the
      rules fired since the base. */
  ghost predicate Explained(T: Tables, C: Certificate, cfg: Config) {
    exists gamma, ys, rs :: Explains(T, C, cfg, gamma, ys, rs)
  }

  lemma BaseIsExplained(T: Tables, C: Certificate, cfg: Config)
    requires cfg.stack == [] && ShiftedSince(cfg.log) == [] && FiredSince(cfg.log) == []
    ensures Explained(T, C, cfg)
  {
    assert Explains(T, C, cfg, [], [], []) by {
      forall w | AllTerminals(T, w)
        ensures Derives(T, [] + w, [], [] + w)
      {
      }
    }
  }

  lemma LogPush(log: seq<Event>, ev: Event)
    ensures (log + [ev])[..|log + [ev]| - 1] == log
    ensures (log + [ev])[|log + [ev]| - 1] == ev
  {
  }

  lemma ShiftIsExplained(T: Tables, C: Certificate, cfg: Config, e: Entry)
    requires WellFormed(T, C)
    requires Explained(T, C, cfg)
    requires e.major < T.nTerminal && Edge(T, C, TopCode(cfg.stack), e.stateno, e.major)
    ensures Explained(T, C, Config(cfg.stack + [e], cfg.log + [Shifted(e)]))
  {
    hide Layout, Yields, Executed, StackReads, ReadAs;
    var gamma, ys, rs :| Explains(T, C, cfg, gamma, ys, rs);
    assert Reads(T, e.major, SymOf(T, C, e.stateno));
    var chain, s :| StandsFor(T, e.major, chain, s) && Matches(SymOf(T, C, e.stateno), s);
    ReadingsAreTerminals(T, e.major);
    var next := Config(cfg.stack + [e], cfg.log + [Shifted(e)]);
    LogPush(cfg.log, Shifted(e));
    MajorsPush(ShiftedSince(cfg.log), e);
    ReadAsPush(T, Majors(ShiftedSince(cfg.log)), ys, e.major, s);
    StackReadsPush(T, C, cfg.stack, gamma, e, s);
    YieldsShift(T, gamma, rs, ys, s);
    assert Explains(T, C, next, gamma + [s], ys + [s], rs);
  }

  /** Reducing by r and lifting the left side through `chain` prepends both to the derivation. */
  lemma ReduceYields(T: Tables, before: seq<nat>, mid: seq<nat>, r: nat, chain: seq<nat>, s: nat, rs: seq<nat>,
                     ys: seq<nat>)
    requires r < |T.rules| && !OptimizedOut(T, r) && Instance(Rhs(T, r), mid)
    requires UnitChain(T, Lhs(T, r), chain, s)
    requires Yields(T, before + mid, rs, ys)
    ensures Yields(T, before + [s], Reverse(chain) + ([r] + rs), ys)
    ensures Executed(T, Reverse(chain) + ([r] + rs)) == [r] + Executed(T, rs)
  {
    YieldsReduce(T, before, mid, r, rs, ys);
    YieldsLift(T, before, Lhs(T, r), chain, s, [r] + rs, ys);
    ExecutedFirst(T, r, rs);
  }

  lemma ReduceExplains(T: Tables, C: Certificate, log: seq<Event>, r: nat, below: seq<Entry>, rhs: seq<Entry>, e: Entry,
                       before: seq<nat>, mid: seq<nat>, s: nat, chain: seq<nat>, ys: seq<nat>, rs: seq<nat>)
    requires r < |T.rules| && !OptimizedOut(T, r) && Instance(Rhs(T, r), mid)
    requires UnitChain(T, Lhs(T, r), chain, s)
    requires Explains(T, C, Config(below + rhs, log), before + mid, ys, rs)
    requires StackReads(T, C, below, before) && SymbolFits(T, C, e.stateno, s)
    ensures Explained(T, C, Config(below + [e], log + [Reduced(r, rhs, e)]))
  {
    hide Yields, UnitChain, Instance, OptimizedOut, ReadAs, StackReads, SymbolFits, Derives;
    ReduceYields(T, before, mid, r, chain, s, rs, ys);
    LogPush(log, Reduced(r, rhs, e));
    ReverseSnoc(FiredSince(log), r);
    StackReadsPush(T, C, below, before, e, s);
    assert Explains(T, C, Config(below + [e], log + [Reduced(r, rhs, e)]), before + [s], ys,
                    Reverse(chain) + ([r] + rs));
  }

  lemma ReduceIsExplained(T: Tables, C: Certificate, cfg: Config, r: nat, e: Entry)
    requires WellFormed(T, C)
    requires Explained(T, C, cfg) && Ready(T, C, cfg.stack, r)
    requires e.major == Lhs(T, r) && |Rhs(T, r)| <= |cfg.stack|
    requires Edge(T, C, StateAt(cfg.stack, |cfg.stack| - |Rhs(T, r)|), e.stateno, e.major)
    ensures var keep := |cfg.stack| - |Rhs(T, r)|;
      Explained(T, C, Config(cfg.stack[..keep] + [e], cfg.log + [Reduced(r, cfg.stack[keep..], e)]))
  {
    hide WellFormed, Ready, Edge, ReadAs, Executed, Yields, StackReads, UnitChain, Instance, SymbolFits;
    var gamma, ys, rs :| Explains(T, C, cfg, gamma, ys, rs);
    RightSideIsInstance(T, C, cfg.stack, r, gamma);
    var keep := |cfg.stack| - |Rhs(T, r)|;
    StackReadsTake(T, C, cfg.stack, keep, gamma);
    var chain, s := LeftSideReading(T, C, StateAt(cfg.stack, keep), r, e);
    assert cfg.stack == cfg.stack[..keep] + cfg.stack[keep..];
    ReduceExplains(T, C, cfg.log, r, cfg.stack[..keep], cfg.stack[keep..], e, gamma[..keep], gamma[keep..], s, chain,
                   ys, rs);
  }

  lemma LeftSideReading(T: Tables, C: Certificate, p: nat, r: nat, e: Entry) returns (chain: seq<nat>, s: nat)
    requires WellFormed(T, C)
    requires r < |T.rules| && e.major == Lhs(T, r)
    requires Edge(T, C, p, e.stateno, e.major)
    ensures UnitChain(T, e.major, chain, s) && SymbolFits(T, C, e.stateno, s)
  {
    assert RuleOK(T, r);
    assert Reads(T, e.major, SymOf(T, C, e.stateno));
    chain, s :| StandsFor(T, e.major, chain, s) && Matches(SymOf(T, C, e.stateno), s);
  }

  lemma RightSideIsInstance(T: Tables, C: Certificate, stack: seq<Entry>, r: nat, gamma: seq<nat>)
    requires WellFormed(T, C)
    requires Ready(T, C, stack, r) && StackReads(T, C, stack, gamma)
    ensures |Rhs(T, r)| <= |stack| && r < |T.rules| && !OptimizedOut(T, r)
    ensures Instance(Rhs(T, r), gamma[|stack| - |Rhs(T, r)|..])
  {
    hide WellFormed, Reads;
    var keep := |stack| - |Rhs(T, r)|;
    forall j | 0 <= j < |Rhs(T, r)|
      ensures Matches(Rhs(T, r)[j], gamma[keep..][j])
    {
      assert EntrySpells(T, C, stack[keep..][j], Rhs(T, r)[j]);
      assert SymbolFits(T, C, stack[keep + j].stateno, gamma[keep + j]);
    }
  }

  /** At acceptance the whole stack is the right side of a start rule. */
  lemma AcceptIsSentence(T: Tables, C: Certificate, cfg: Config, r: nat)
    requires WellFormed(T, C)
    requires Explained(T, C, cfg) && Ready(T, C, cfg.stack, r)
    requires |cfg.stack| == |Rhs(T, r)| && Lhs(T, r) == T.start
    ensures Sentence(T, Majors(ShiftedSince(cfg.log)), FiredSince(cfg.log) + [r])
  {
    hide WellFormed, Ready, Yields, StackReads, ReadAs, Derives, Executed, Instance;
    var gamma, ys, rs :| Explains(T, C, cfg, gamma, ys, rs);
    RightSideIsInstance(T, C, cfg.stack, r, gamma);
    assert gamma[0..] == gamma == [] + gamma;
    YieldsReduce(T, [], gamma, r, rs, ys);
    ExecutedFirst(T, r, rs);
    ReverseSnoc(FiredSince(cfg.log), r);
    assert [] + [T.start] == [T.start];
    YieldsAlone(T, [T.start], [r] + rs, ys);
    assert SentenceBy(T, Majors(ShiftedSince(cfg.log)), FiredSince(cfg.log) + [r], ys, [r] + rs);
  }
}

/** What the parser accepts, said about its input. */
module Acceptance {
  import opened Wrappers
  import opened Tables
  import opened Grammar
  import opened Machine
  import opened Driver
  import opened History
  import opened Runs
  import opened Theorems

  // ----- the tokens that count -----

  /** A shifted entry as the token that was fed. */
  function TokenOf(e: Entry): (nat, Token) {
    (e.major, if e.minor.Leaf? then e.minor.token else Token(0, 0))
  }

  function TokensOf(es: seq<Entry>): (ts: Input)
    ensures |ts| == |es|
  {
    if es == [] then [] else TokensOf(es[..|es| - 1]) + [TokenOf(es[|es| - 1])]
  }

  function Types(ts: Input): (ms: seq<nat>)
    ensures |ms| == |ts| && forall i :: 0 <= i < |ms| ==> ms[i] == ts[i].0
  {
    seq(|ts|, i requires 0 <= i < |ts| => ts[i].0)
  }

  lemma {:induction false} TypesAreMajors(es: seq<Entry>)
    ensures Types(TokensOf(es)) == Majors(es)
    decreases |es|
  {
    if es != [] {
      var n := |es| - 1;
      TypesAreMajors(es[..n]);
      assert Majors(es) == Majors(es[..n]) + [es[n].major];
      assert Types(TokensOf(es)) == Types(TokensOf(es[..n])) + [es[n].major];
    }
  }

  function ShiftedTokens(log: seq<Event>): Input {
    TokensOf(ShiftedSince(log))
  }

  /** How an event changes what counts as shifted. */
  function Counted(before: seq<Entry>, ev: Event): seq<Entry> {
    match ev
    case Shifted(e) => before + [e]
    case Accepted(_, _) => []
    case Overflowed(_) => []
    case _ => before
  }

  lemma ShiftedPush(log: seq<Event>, ev: Event)
    ensures ShiftedSince(log + [ev]) == Counted(ShiftedSince(log), ev)
  {
    LogPush(log, ev);
  }

  /** How a call ends: the token is shifted, rejected, or lost at the base. */
  ghost predicate Ends(cfg: Config, log: seq<Event>, major: nat, token: Token) {
    && log != []
    && var ev := log[|log| - 1];
       if ev.Shifted? then
         && ev.e.major == major && ev.e.minor == Leaf(token)
         && ShiftedSince(log) == ShiftedSince(cfg.log) + [ev.e]
       else if ev.Rejected? then
         ev == Rejected(major, token) && ShiftedSince(log) == ShiftedSince(cfg.log)
       else
         ev == Discarded(major, token) && ShiftedSince(log) == []
  }

  lemma ShiftEnds(T: Tables, limit: nat, cfg: Config, a: nat, major: nat, token: Token)
    ensures var next := ShiftStep(T, limit, cfg, a, major, token);
      if next.stack == [] then Ends(cfg, Note(next, Discarded(major, token)).log, major, token)
      else Ends(cfg, next.log, major, token)
  {
    hide DestroyLog, ShiftedSince;
    var next := ShiftStep(T, limit, cfg, a, major, token);
    if |cfg.stack| >= limit {
      ShiftedPush(cfg.log + DestroyLog(cfg.stack), Overflowed(false));
      ShiftedPush(next.log, Discarded(major, token));
    } else {
      ShiftedPush(cfg.log, Shifted(Entry(T.Stored(a), major, Leaf(token))));
    }
  }

  lemma {:induction false} DestroyOnly(stack: seq<Entry>)
    ensures forall j :: 0 <= j < |DestroyLog(stack)| ==> DestroyLog(stack)[j].Destroyed?
  {
    if stack != [] {
      DestroyOnly(stack[..|stack| - 1]);
    }
  }

  /** Whatever is accepted after `base` is what had been shifted by then. */
  ghost predicate AcceptsShifted(base: seq<Event>, log: seq<Event>) {
    && base <= log
    && forall j :: |base| <= j < |log| && log[j].Accepted? ==> ShiftedSince(log[..j]) == ShiftedSince(base)
  }

  lemma NoAccepts(base: seq<Event>, more: seq<Event>)
    requires forall j :: 0 <= j < |more| ==> !more[j].Accepted?
    ensures AcceptsShifted(base, base + more)
  {
  }

  lemma FirstAccepts(base: seq<Event>, ev: Event, more: seq<Event>)
    requires forall j :: 0 <= j < |more| ==> !more[j].Accepted?
    ensures AcceptsShifted(base, base + [ev] + more)
  {
    assert (base + [ev] + more)[..|base|] == base;
  }

  /** A reduction shifts nothing; at the base nothing counts any more. */
  lemma ReduceShiftsNothing(T: Tables, limit: nat, cfg: Config, r: nat)
    requires 1 <= limit && |Rhs(T, r)| <= |cfg.stack| && Goto(T, cfg.stack, r).Some?
    requires Goto(T, cfg.stack, r).value >= T.MinReduce() ==> |cfg.stack| == |Rhs(T, r)|
    ensures var next := ReduceStep(T, limit, cfg, r);
      && cfg.log <= next.log
      && ShiftedSince(next.log) == (if next.stack == [] then [] else ShiftedSince(cfg.log))
      && (next.stack != [] ==> |next.log| == |cfg.log| + 1 && !next.log[|cfg.log|].Accepted?)
  {
    hide DestroyLog, LhsEntry, ShiftedSince;
    var keep := |cfg.stack| - |Rhs(T, r)|;
    if |Rhs(T, r)| == 0 && |cfg.stack| >= limit {
      var top := |cfg.stack| - 1;
      ShiftedPush(cfg.log + [Dropped(cfg.stack[top])] + DestroyLog(cfg.stack[..top]), Overflowed(true));
    } else if Goto(T, cfg.stack, r).value < T.MinReduce() {
      ShiftedPush(cfg.log, Reduced(r, cfg.stack[keep..], LhsEntry(T, cfg.stack, r)));
    } else {
      ShiftedPush(cfg.log, Accepted(r, cfg.stack[keep..]));
    }
  }

  lemma ReduceAccepts(T: Tables, limit: nat, cfg: Config, r: nat, major: nat, token: Token)
    requires 1 <= limit && |Rhs(T, r)| <= |cfg.stack| && Goto(T, cfg.stack, r).Some?
    ensures AcceptsShifted(cfg.log, Note(ReduceStep(T, limit, cfg, r), Discarded(major, token)).log)
  {
    hide DestroyLog, LhsEntry, AcceptsShifted;
    var keep := |cfg.stack| - |Rhs(T, r)|;
    var lost := [Discarded(major, token)];
    if |Rhs(T, r)| == 0 && |cfg.stack| >= limit {
      var top := |cfg.stack| - 1;
      DestroyOnly(cfg.stack[..top]);
      var more := [Dropped(cfg.stack[top])] + DestroyLog(cfg.stack[..top]) + [Overflowed(true)] + lost;
      NoAccepts(cfg.log, more);
      assert Note(ReduceStep(T, limit, cfg, r), Discarded(major, token)).log == cfg.log + more;
    } else if Goto(T, cfg.stack, r).value < T.MinReduce() {
      FirstAccepts(cfg.log, Reduced(r, cfg.stack[keep..], LhsEntry(T, cfg.stack, r)), lost);
    } else {
      FirstAccepts(cfg.log, Accepted(r, cfg.stack[keep..]), lost);
    }
  }

  lemma ShiftAccepts(T: Tables, limit: nat, cfg: Config, a: nat, major: nat, token: Token)
    ensures var next := ShiftStep(T, limit, cfg, a, major, token);
      if next.stack == [] then AcceptsShifted(cfg.log, Note(next, Discarded(major, token)).log)
      else AcceptsShifted(cfg.log, next.log)
  {
    hide DestroyLog, AcceptsShifted;
    if |cfg.stack| >= limit {
      DestroyOnly(cfg.stack);
      var more := DestroyLog(cfg.stack) + [Overflowed(false), Discarded(major, token)];
      NoAccepts(cfg.log, more);
      assert Note(ShiftStep(T, limit, cfg, a, major, token), Discarded(major, token)).log == cfg.log + more;
    } else {
      NoAccepts(cfg.log, [Shifted(Entry(T.Stored(a), major, Leaf(token)))]);
    }
  }

  /** A call ends with what became of its token, and accepts at most what was shifted before it. */
  lemma {:induction false} CallEnds(T: Tables, C: Certificate, limit: nat, cfg: Config, major: nat, token: Token)
    requires Inv(T, C, limit, cfg.stack) && major < T.nTerminal
    ensures var log := Feed(T, C, limit, cfg, major, token).log;
      Ends(cfg, log, major, token) && AcceptsShifted(cfg.log, log)
    decreases Room(C, limit, cfg.stack)
  {
    hide Inv, Room, Ready, Edge, ReduceStep, ShiftStep, ShiftAction, Goto, ShiftedSince;
    FeedUnfolds(T, C, limit, cfg, major, token);
    var a := ShiftAction(T, TopCode(cfg.stack), major);
    if a < T.MinReduce() {
      ShiftEnds(T, limit, cfg, a, major, token);
      ShiftAccepts(T, limit, cfg, a, major, token);
    } else if a < T.ErrorAction() {
      var next := ReduceStep(T, limit, cfg, a - T.MinReduce());
      ReduceShiftsNothing(T, limit, cfg, a - T.MinReduce());
      if next.stack == [] {
        ShiftedPush(next.log, Discarded(major, token));
        ReduceAccepts(T, limit, cfg, a - T.MinReduce(), major, token);
      } else {
        FeedUnfolds(T, C, limit, next, major, token);
        CallEnds(T, C, limit, next, major, token);
      }
    } else {
      ShiftedPush(cfg.log, Rejected(major, token));
      NoAccepts(cfg.log, [Rejected(major, token)]);
    }
  }

  /** The tokens of the input since the last call that ended at the base, without those that
      were rejected. */
  function Kept(T: Tables, C: Certificate, limit: nat, tokens: Input): Input
    requires WellFormed(T, C) && 1 <= limit && Tokens(T, tokens)
    decreases |tokens|
  {
    if tokens == [] then []
    else
      var log := FreshRun(T, C, limit, tokens).log;
      var before := Kept(T, C, limit, tokens[..|tokens| - 1]);
      if log == [] || log[|log| - 1].Discarded? then []
      else if log[|log| - 1].Rejected? then before
      else before + [tokens[|tokens| - 1]]
  }

  /** What the log calls shifted is just those tokens of the input. */
  lemma {:induction false} KeptIsShifted(T: Tables, C: Certificate, limit: nat, tokens: Input)
    requires WellFormed(T, C) && 1 <= limit && Tokens(T, tokens)
    ensures Kept(T, C, limit, tokens) == ShiftedTokens(FreshRun(T, C, limit, tokens).log)
    decreases |tokens|
  {
    hide WellFormed, Inv, Feed, ShiftedSince, AcceptsShifted;
    InitialInv(T, C, limit);
    if tokens == [] {
      NothingShifted();
    } else {
      var front, last := tokens[..|tokens| - 1], tokens[|tokens| - 1];
      var cfg := FreshRun(T, C, limit, front);
      KeptIsShifted(T, C, limit, front);
      CallEnds(T, C, limit, cfg, last.0, last.1);
      var log := FreshRun(T, C, limit, tokens).log;
      assert log == Feed(T, C, limit, cfg, last.0, last.1).log;
      if log[|log| - 1].Shifted? {
        var e := log[|log| - 1].e;
        assert (ShiftedSince(cfg.log) + [e])[..|ShiftedSince(cfg.log)|] == ShiftedSince(cfg.log);
      }
    }
  }

  lemma NothingShifted()
    ensures ShiftedSince([]) == []
  {
  }

  // ----- acceptance in terms of the input -----

  /** If the call for the last token accepts, then the tokens kept before it, each read as itself,
      its fallback or ANY, are a sentence of the grammar. */
  lemma AcceptedInputIsSentence(T: Tables, C: Certificate, limit: nat, tokens: Input, i: nat)
    requires WellFormed(T, C) && 1 <= limit && Tokens(T, tokens) && tokens != []
    requires var front := FreshRun(T, C, limit, tokens[..|tokens| - 1]).log;
      var log := FreshRun(T, C, limit, tokens).log;
      |front| <= i < |log| && log[i].Accepted?
    ensures var log := FreshRun(T, C, limit, tokens).log;
      Sentence(T, Types(Kept(T, C, limit, tokens[..|tokens| - 1])), FiredSince(log[..i]) + [log[i].rule])
  {
    hide WellFormed, Inv, Feed, ShiftedSince, FiredSince, Sentence, Kept;
    InitialInv(T, C, limit);
    var front, last := tokens[..|tokens| - 1], tokens[|tokens| - 1];
    var cfg := FreshRun(T, C, limit, front);
    CallEnds(T, C, limit, cfg, last.0, last.1);
    KeptIsShifted(T, C, limit, front);
    TypesAreMajors(ShiftedSince(cfg.log));
    AcceptanceIsSound(T, C, limit, tokens, i);
  }
}

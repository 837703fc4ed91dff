/** The language of a parser: it accepts exactly the sentences of its grammar, and no sentence has
    two meanings. */
module Language {
  import opened Tables
  import opened Grammar
  import opened Machine
  import opened Driver
  import opened History
  import opened Runs
  import opened Theorems
  import opened Refinement
  import opened Acceptance
  import opened Depth
  import opened Completeness

  /** The tokens, each under some reading, derive from the start symbol. */
  ghost predicate IsSentence(T: Tables, tokens: Input) {
    exists ys, rs :: ReadAs(T, Types(tokens), ys) && Derives(T, [T.start], rs, ys)
  }

  /** A fresh parser shifts and reduces its way through the tokens and accepts at the end of input. */
  ghost predicate Accepts(T: Tables, C: Certificate, limit: nat, tokens: Input, u: Token) {
    && WellFormed(T, C) && 1 <= limit && Tokens(T, tokens + [(0, u)])
    && exists r, es :: AcceptsAs(FreshRun(T, C, limit, tokens + [(0, u)]), r, es, u)
  }

  // ----- what is accepted is a sentence -----

  lemma QuietCallShifts(T: Tables, C: Certificate, limit: nat, cfg: Config, major: nat, token: Token)
    requires Inv(T, C, limit, cfg.stack) && major < T.nTerminal
    requires Quietly([], Feed(T, C, limit, cfg, major, token).log)
    ensures var log := Feed(T, C, limit, cfg, major, token).log;
      Quietly([], cfg.log) && log != [] && log[|log| - 1].Shifted?
  {
    hide Inv, Feed, ShiftedSince;
    CallEnds(T, C, limit, cfg, major, token);
  }

  /** If nothing was rejected or lost, every token still counts. */
  lemma {:induction false} QuietKeepsAll(T: Tables, C: Certificate, limit: nat, tokens: Input)
    requires WellFormed(T, C) && 1 <= limit && Tokens(T, tokens)
    requires Quietly([], FreshRun(T, C, limit, tokens).log)
    ensures Kept(T, C, limit, tokens) == tokens
    decreases |tokens|
  {
    hide WellFormed, Inv, Feed, Quietly;
    InitialInv(T, C, limit);
    if tokens != [] {
      var n := |tokens| - 1;
      QuietCallShifts(T, C, limit, FreshRun(T, C, limit, tokens[..n]), tokens[n].0, tokens[n].1);
      QuietKeepsAll(T, C, limit, tokens[..n]);
      assert tokens == tokens[..n] + [tokens[n]];
    }
  }

  /** The accepting event belongs to the call for the end of input. */
  lemma AcceptIsLast(T: Tables, C: Certificate, limit: nat, tokens: Input, u: Token, r: nat, es: seq<Entry>)
    requires WellFormed(T, C) && 1 <= limit && Tokens(T, tokens) && Tokens(T, tokens + [(0, u)])
    requires AcceptsAs(FreshRun(T, C, limit, tokens + [(0, u)]), r, es, u)
    ensures var front, log := FreshRun(T, C, limit, tokens).log, FreshRun(T, C, limit, tokens + [(0, u)]).log;
      |front| <= |log| - 2 && front <= log && Quietly([], front)
  {
    hide WellFormed, Inv, Feed, Handled, ShiftedSince;
    InitialInv(T, C, limit);
    var all := tokens + [(0, u)];
    assert all[..|all| - 1] == tokens;
    var cfg, log := FreshRun(T, C, limit, tokens), FreshRun(T, C, limit, all).log;
    CallEnds(T, C, limit, cfg, 0, u);
    CallHandlesToken(T, C, limit, cfg, 0, u);
    assert cfg.log == log ==> Handled(cfg.log) == Handled(log);
    FrontEnds(T, C, limit, tokens);
  }

  lemma FrontEnds(T: Tables, C: Certificate, limit: nat, tokens: Input)
    requires WellFormed(T, C) && 1 <= limit && Tokens(T, tokens)
    ensures var log := FreshRun(T, C, limit, tokens).log; log != [] ==> !log[|log| - 1].Accepted?
  {
    hide WellFormed, Inv, Feed, ShiftedSince, AcceptsShifted;
    InitialInv(T, C, limit);
    if tokens != [] {
      var n := |tokens| - 1;
      CallEnds(T, C, limit, FreshRun(T, C, limit, tokens[..n]), tokens[n].0, tokens[n].1);
    }
  }

  lemma AcceptedIsSentence(T: Tables, C: Certificate, limit: nat, tokens: Input, u: Token)
    requires Accepts(T, C, limit, tokens, u) && Tokens(T, tokens)
    ensures IsSentence(T, tokens)
  {
    hide WellFormed, FreshRun, Quietly, FiredSince, Derives;
    var all := tokens + [(0, u)];
    var r, es :| AcceptsAs(FreshRun(T, C, limit, all), r, es, u);
    var log := FreshRun(T, C, limit, all).log;
    assert all[..|all| - 1] == tokens;
    AcceptIsLast(T, C, limit, tokens, u, r, es);
    assert log[|log| - 2] == log[|log| - 2..][0];
    QuietKeepsAll(T, C, limit, tokens);
    AcceptedInputIsSentence(T, C, limit, all, |log| - 2);
  }

  // ----- every sentence is accepted -----

  /** A sentence is accepted by every stack that is deep enough for its tree. */
  lemma SentenceIsAccepted(T: Tables, C: Certificate, L: Follow, tokens: Input, u: Token) returns (depth: nat)
    requires WellFormed(T, C) && Closed(T, C, L) && Tokens(T, tokens) && IsSentence(T, tokens)
    ensures forall limit :: depth <= limit ==> Accepts(T, C, limit, tokens, u)
  {
    hide WellFormed, Closed, FreshRun, Derives, AcceptsAs, Valid;
    var ys, rs :| ReadAs(T, Types(tokens), ys) && Derives(T, [T.start], rs, ys);
    var xs := DerivationForest(T, [T.start], rs, tokens, ys);
    var x := xs[0];
    depth := Height(x);
    assert xs == [x];
    YieldOne(x);
    StartTree(T, C, L, x);
    forall limit | depth <= limit
      ensures Accepts(T, C, limit, tokens, u)
    {
      var es := TreeIsAccepted(T, C, L, limit, x, u);
    }
  }

  /** A tree of the start symbol is a node. */
  lemma StartTree(T: Tables, C: Certificate, L: Follow, x: Tree)
    requires WellFormed(T, C) && Closed(T, C, L) && Valid(T, x) && Symbol(T, x) == T.start
    ensures x.Node? && Lhs(T, x.rule) == T.start
  {
    hide WellFormed, ItemClosed, FirstClosed, StartClosed;
    SymbolInRange(T, C, x);
  }

  /** Some stack accepts the tokens if and only if they are a sentence. */
  lemma AcceptsExactlySentences(T: Tables, C: Certificate, L: Follow, tokens: Input, u: Token)
    requires WellFormed(T, C) && Closed(T, C, L) && Tokens(T, tokens)
    ensures (exists limit :: Accepts(T, C, limit, tokens, u)) <==> IsSentence(T, tokens)
  {
    hide WellFormed, Closed, IsSentence, Accepts;
    if IsSentence(T, tokens) {
      var depth := SentenceIsAccepted(T, C, L, tokens, u);
      assert Accepts(T, C, depth, tokens, u);
    }
    if limit: nat :| Accepts(T, C, limit, tokens, u) {
      AcceptedIsSentence(T, C, limit, tokens, u);
    }
  }

  // ----- with a bounded stack -----

  lemma AcceptsNeedsRun(T: Tables, C: Certificate, limit: nat, deep: nat, tokens: Input, u: Token)
    requires WellFormed(T, C) && 1 <= limit && 1 <= deep && Tokens(T, tokens + [(0, u)])
    requires FreshRun(T, C, limit, tokens + [(0, u)]) == FreshRun(T, C, deep, tokens + [(0, u)])
    ensures Accepts(T, C, limit, tokens, u) <==> Accepts(T, C, deep, tokens, u)
  {
    hide WellFormed, FreshRun, AcceptsAs;
  }

  /** Where the input bounds the stack, every stack with that many entries decides the language. */
  lemma BoundedParserDecides(T: Tables, C: Certificate, L: Follow, D: DepthCertificate, limit: nat, tokens: Input,
                             u: Token)
    requires WellFormed(T, C) && Closed(T, C, L) && Bounded(T, C, D) && Tokens(T, tokens + [(0, u)])
    requires Enough(D, |tokens| + 1) <= limit
    ensures Accepts(T, C, limit, tokens, u) <==> IsSentence(T, tokens)
  {
    hide WellFormed, Closed, Bounded, IsSentence, Accepts, FreshRun, Overflows;
    var all := tokens + [(0, u)];
    assert forall i :: 0 <= i < |tokens| ==> tokens[i] == all[i];
    AcceptsExactlySentences(T, C, L, tokens, u);
    if IsSentence(T, tokens) {
      var depth := SentenceIsAccepted(T, C, L, tokens, u);
      var deep := if depth < limit then limit else depth;
      EveryInputFits(T, C, D, limit, all);
      EveryInputFits(T, C, D, deep, all);
      AcceptsNeedsRun(T, C, limit, deep, tokens, u);
    }
  }

  // ----- no sentence has two meanings -----

  /** Two trees over the same tokens build the same semantic value. */
  lemma MeaningIsUnique(T: Tables, C: Certificate, L: Follow, x: Tree, y: Tree)
    requires WellFormed(T, C) && Closed(T, C, L) && Valid(T, x) && Valid(T, y)
    requires Symbol(T, x) == T.start == Symbol(T, y) && Yield(x) == Yield(y)
    ensures Value(T, x) == Value(T, y)
  {
    hide WellFormed, Closed, FreshRun, Valid, Yield, Value, Quietly;
    StartTree(T, C, L, x);
    StartTree(T, C, L, y);
    var limit, u := Height(x) + Height(y), Token(0, 0);
    var es := TreeIsAccepted(T, C, L, limit, x, u);
    var fs := TreeIsAccepted(T, C, L, limit, y, u);
    var cfg := FreshRun(T, C, limit, Yield(x) + [(0, u)]);
    assert [Accepted(x.rule, es), Discarded(0, u)][0] == [Accepted(y.rule, fs), Discarded(0, u)][0];
  }
}

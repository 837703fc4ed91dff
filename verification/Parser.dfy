/** The parser object: a fixed array of entries, the index of the top one, and the routines
    that update them in place.  Each routine is proved against the machine on values. */
module Parser {
  import opened Wrappers
  import opened Tables
  import opened Machine
  import opened Driver
  import opened Theorems

  /** Errors the driver reports: one for each rejected token and each overflow. */
  function Errors(log: seq<Event>): nat {
    if log == [] then 0
    else
      var before := Errors(log[..|log| - 1]);
      match log[|log| - 1]
      case Rejected(_, _) => before + 1
      case Overflowed(_) => before + 1
      case _ => before
  }

  lemma {:induction false} ErrorsConcat(log: seq<Event>, more: seq<Event>)
    ensures Errors(log + more) == Errors(log) + Errors(more)
    decreases |more|
  {
    if more == [] {
      assert log + more == log;
    } else {
      assert (log + more)[..|log + more| - 1] == log + more[..|more| - 1];
      ErrorsConcat(log, more[..|more| - 1]);
    }
  }

  lemma ErrorsPush(log: seq<Event>, ev: Event)
    ensures Errors(log + [ev]) == Errors(log) + if ev.Rejected? || ev.Overflowed? then 1 else 0
  {
    assert (log + [ev])[..|log + [ev]| - 1] == log;
  }

  lemma {:induction false} DestroyingReportsNothing(stack: seq<Entry>)
    ensures Errors(DestroyLog(stack)) == 0
    decreases |stack|
  {
    if stack != [] {
      ErrorsConcat([Destroyed(stack[|stack| - 1])], DestroyLog(stack[..|stack| - 1]));
      DestroyingReportsNothing(stack[..|stack| - 1]);
    }
  }

  lemma OverflowReports(log: seq<Event>, stack: seq<Entry>, onEmptyRule: bool)
    ensures Errors(log + DestroyLog(stack) + [Overflowed(onEmptyRule)]) == Errors(log) + 1
  {
    hide DestroyLog;
    DestroyingReportsNothing(stack);
    ErrorsConcat(log, DestroyLog(stack));
    ErrorsPush(log + DestroyLog(stack), Overflowed(onEmptyRule));
  }

  /** The best of at most three readings. */
  lemma ShiftActionCases(T: Tables, q: nat, t: nat)
    ensures var f, w := Fallback(T, t), T.wildcard;
      ShiftAction(T, q, t) ==
        if q >= T.MinReduce() then q
        else if ShiftEntry(T, q, t).Some? then ShiftEntry(T, q, t).value
        else if f != 0 && ShiftEntry(T, q, f).Some? then ShiftEntry(T, q, f).value
        else if t > 0 && ShiftEntry(T, q, w).Some? then ShiftEntry(T, q, w).value
        else Default(T, q)
  {
    var last := if t > 0 then [T.wildcard] else [];
    var f := Fallback(T, t);
    var rest := if f != 0 then [f] + last else last;
    assert Readings(T, t) == [t] + rest;
    FirstHitStep(T, q, t, rest);
    FirstHitStep(T, q, f, last);
    FirstHitStep(T, q, T.wildcard, []);
  }

  lemma FirstHitStep(T: Tables, q: nat, c: nat, cols: seq<nat>)
    ensures FirstHit(T, q, [c] + cols)
         == if ShiftEntry(T, q, c).Some? then Some(c) else FirstHit(T, q, cols)
  {
    assert ([c] + cols)[1..] == cols;
  }

  /** The look-ahead action of a state field.  The second result counts the rounds of the
      fallback loop. */
  method FindShiftAction(T: Tables, stateno: nat, iLookAhead: nat) returns (act: nat, ghost rounds: nat)
    requires Layout(T) && iLookAhead < T.nTerminal
    requires T.IsState(stateno) || T.IsReduce(stateno)
    ensures act == ShiftAction(T, stateno, iLookAhead)
    ensures rounds <= 2
  {
    hide ShiftAction, Readings, FirstHit;
    rounds := 0;
    ShiftActionCases(T, stateno, iLookAhead);
    if stateno >= T.MinReduce() {
      return stateno, rounds;
    }
    assert FallbackOK(T, iLookAhead);
    var la := iLookAhead;
    while true
      invariant la == iLookAhead ==> rounds == 0
      invariant la != iLookAhead ==> rounds == 1 && la == Fallback(T, iLookAhead) != 0
      invariant la != iLookAhead ==> ShiftEntry(T, stateno, iLookAhead).None?
      decreases Fallback(T, la)
    {
      rounds := rounds + 1;
      var i := T.shiftOfst[stateno] + la;
      if i < 0 || i >= |T.action| || T.lookahead[i] != la {
        if la < |T.fallback| && T.fallback[la] != 0 {
          la := T.fallback[la];
          continue;
        }
        var j := i - la + T.wildcard;
        if j < |T.action| && T.lookahead[j] == T.wildcard && la > 0 {
          return T.action[j], rounds;
        }
        return T.dflt[stateno], rounds;
      } else {
        return T.action[i], rounds;
      }
    }
  }

  /** The goto.  It is only asked for entries that exist. */
  method FindReduceAction(T: Tables, stateno: nat, iLookAhead: nat) returns (act: nat)
    requires Layout(T) && GotoEntry(T, stateno, iLookAhead).Some?
    ensures act == GotoEntry(T, stateno, iLookAhead).value
  {
    var i := T.reduceOfst[stateno];
    i := i + iLookAhead;
    act := T.action[i];
  }

  class Parser {
    const T: Tables
    ghost const C: Certificate
    const yystack: array<Entry>
    var yytos: nat
    var nErr: nat
    ghost var log: seq<Event>

    /** Entry 0 is the base; the rest of the live entries are the stack. */
    ghost predicate Shape()
      reads this, yystack
    {
      && 2 <= yystack.Length
      && yytos < yystack.Length
      && yystack[0].stateno == 0
      && yystack[0].major == 0
      && nErr == Errors(log)
      && Layout(T)
    }

    ghost function Stack(): seq<Entry>
      requires yytos < yystack.Length
      reads this, yystack
    {
      yystack[1..yytos + 1]
    }

    ghost function Cfg(): Config
      requires yytos < yystack.Length
      reads this, yystack
    {
      Config(Stack(), log)
    }

    ghost function Limit(): nat
      requires 2 <= yystack.Length
    {
      yystack.Length - 1
    }

    ghost predicate Valid()
      reads this, yystack
    {
      Shape() && Inv(T, C, Limit(), Stack())
    }

    constructor Alloc(T: Tables, ghost C: Certificate, depth: nat)
      requires WellFormed(T, C) && 2 <= depth
      ensures Valid() && Cfg() == INITIAL
      ensures this.T == T && this.C == C && yystack.Length == depth && fresh(yystack)
    {
      this.T := T;
      this.C := C;
      yystack := new Entry[depth];
      yytos := 0;
      nErr := 0;
      log := [];
      new;
      yystack[0] := yystack[0].(stateno := 0, major := 0);
    }

    lemma TopIsState()
      requires Valid()
      ensures T.IsState(yystack[yytos].stateno) || T.IsReduce(yystack[yytos].stateno)
      ensures yystack[yytos].stateno == TopCode(Stack())
    {
      OnlyBaseIsZero(T, C, Stack(), |Stack()|);
    }

    method Destructor(e: Entry)
      modifies this`log
      ensures log == old(log) + [Destroyed(e)]
    {
      log := log + [Destroyed(e)];
    }

    method PopParserStack()
      requires 0 < yytos < yystack.Length
      modifies this`log, this`yytos
      ensures yytos == old(yytos) - 1
      ensures log == old(log) + [Destroyed(yystack[old(yytos)])]
    {
      var e := yystack[yytos];
      yytos := yytos - 1;
      Destructor(e);
    }

    /** Pop down to the base. */
    method PopAll()
      requires yytos < yystack.Length
      modifies this`log, this`yytos
      ensures yytos == 0
      ensures log == old(log) + DestroyLog(old(Stack()))
    {
      while yytos > 0
        invariant yytos < yystack.Length
        invariant log + DestroyLog(Stack()) == old(log) + DestroyLog(old(Stack()))
      {
        ghost var s := Stack();
        assert s[|s| - 1] == yystack[yytos] && s[..|s| - 1] == yystack[1..yytos];
        PopParserStack();
      }
    }

    /** Called with the top index one too far (a shift) or on the last entry (an empty
        rule).  Either way the index is first moved down by one without destroying. */
    method StackOverflow()
      requires 1 <= yytos <= yystack.Length
      modifies this`log, this`yytos, this`nErr
      ensures yytos == 0 && nErr == old(nErr) + 1
      ensures old(yytos) == yystack.Length ==>
        log == old(log) + DestroyLog(yystack[1..old(yytos)]) + [Overflowed(false)]
      ensures old(yytos) < yystack.Length ==>
        log == old(log) + [Dropped(yystack[old(yytos)])] + DestroyLog(yystack[1..old(yytos)]) + [Overflowed(true)]
    {
      ghost var onEmptyRule := yytos < yystack.Length;
      if yytos < yystack.Length {
        log := log + [Dropped(yystack[yytos])];
      }
      yytos := yytos - 1;
      PopAll();
      nErr := nErr + 1;
      log := log + [Overflowed(onEmptyRule)];
    }

    /** Push the token in the given new state, or overflow. */
    method Shift(newState: nat, major: nat, minor: Token)
      requires Shape()
      modifies this`log, this`yytos, this`nErr, yystack
      ensures Shape() && Cfg() == ShiftStep(T, Limit(), old(Cfg()), newState, major, minor)
    {
      hide Errors, DestroyLog, Layout;
      yytos := yytos + 1;
      if yytos >= yystack.Length {
        ghost var s := yystack[1..yytos];
        StackOverflow();
        OverflowReports(old(log), s, false);
        return;
      }
      var code := newState;
      if code > T.maxShift {
        code := code + T.MinReduce() - T.minShiftReduce;
      }
      yystack[yytos] := Entry(code, major, Leaf(minor));
      log := log + [Shifted(yystack[yytos])];
      ErrorsPush(old(log), Shifted(yystack[yytos]));
      assert Stack() == old(Stack()) + [yystack[yytos]];
    }

    /** Replace the right side of a rule by its left side, or accept, or overflow. */
    method Reduce(ruleno: nat)
      requires Shape() && ruleno < |T.rules|
      requires |Rhs(T, ruleno)| <= yytos && Goto(T, Stack(), ruleno).Some?
      requires Goto(T, Stack(), ruleno).value >= T.MinReduce() ==> |Rhs(T, ruleno)| == yytos
      modifies this`log, this`yytos, this`nErr, yystack
      ensures Shape() && Cfg() == ReduceStep(T, Limit(), old(Cfg()), ruleno)
    {
      hide Errors, DestroyLog, Layout;
      if |T.rules[ruleno].rhs| == 0 && yytos >= yystack.Length - 1 {
        ghost var top, s := yystack[yytos], yystack[1..yytos];
        assert Stack()[..|Stack()| - 1] == s;
        StackOverflow();
        ErrorsPush(old(log), Dropped(top));
        OverflowReports(old(log) + [Dropped(top)], s, true);
        return;
      }
      FinishReduce(ruleno);
    }

    /** The goto after the action of a rule has run. */
    method FinishReduce(ruleno: nat)
      requires Shape() && ruleno < |T.rules|
      requires |Rhs(T, ruleno)| > 0 || yytos < Limit()
      requires |Rhs(T, ruleno)| <= yytos && Goto(T, Stack(), ruleno).Some?
      requires Goto(T, Stack(), ruleno).value >= T.MinReduce() ==> |Rhs(T, ruleno)| == yytos
      modifies this`log, this`yytos, this`nErr, yystack
      ensures Shape() && Cfg() == ReduceStep(T, Limit(), old(Cfg()), ruleno)
    {
      hide Errors, DestroyLog, Layout, Minors;
      var yysize := |T.rules[ruleno].rhs|;
      var below := yytos - yysize;
      var rhs := yystack[below + 1..yytos + 1];
      assert rhs == Stack()[below..] && yystack[below].stateno == StateAt(Stack(), below);
      var yygoto := T.rules[ruleno].lhs;
      var yyact := FindReduceAction(T, yystack[below].stateno, yygoto);
      if yyact < T.MinReduce() {
        if yyact > T.maxShift {
          yyact := yyact + T.MinReduce() - T.minShiftReduce;
        }
        var e := Entry(yyact, yygoto, Built(ruleno, Minors(rhs)));
        assert e == LhsEntry(T, Stack(), ruleno);
        ReplaceTop(below, e, ruleno);
      } else {
        yytos := yytos - yysize;
        Accept(ruleno, rhs);
      }
    }

    /** Accepting happens only at the base. */
    method Accept(ghost ruleno: nat, ghost rhs: seq<Entry>)
      requires Shape() && yytos == 0
      modifies this`log
      ensures Shape() && log == old(log) + [Accepted(ruleno, rhs)]
    {
      hide Errors, Layout;
      log := log + [Accepted(ruleno, rhs)];
      ErrorsPush(old(log), Accepted(ruleno, rhs));
    }

    /** Put e where the right side of a rule begins. */
    method ReplaceTop(below: nat, e: Entry, ghost ruleno: nat)
      requires Shape() && below <= yytos && below + 1 < yystack.Length
      modifies this`log, this`yytos, yystack
      ensures Shape() && Stack() == old(Stack())[..below] + [e]
      ensures log == old(log) + [Reduced(ruleno, old(Stack())[below..], e)]
    {
      hide Errors, Layout;
      log := log + [Reduced(ruleno, Stack()[below..], e)];
      ErrorsPush(old(log), Reduced(ruleno, old(Stack())[below..], e));
      yytos := below + 1;
      yystack[yytos] := e;
    }

    /** One round of the driver loop.  The result says whether the token is still to be
        dealt with. */
    method Round(major: nat, minor: Token) returns (again: bool)
      requires Valid() && major < T.nTerminal
      modifies this`log, this`yytos, this`nErr, yystack
      ensures Valid()
      ensures var result := Feed(T, C, Limit(), old(Cfg()), major, minor);
        if again then
          && Feed(T, C, Limit(), Cfg(), major, minor) == result
          && 0 <= Room(C, Limit(), Stack()) < old(Room(C, Limit(), Stack()))
        else Cfg() == result
    {
      hide Errors, Layout, Inv, Room, Ready, Edge, ShiftAction, ShiftStep, ReduceStep;
      FeedUnfolds(T, C, Limit(), Cfg(), major, minor);
      TopIsState();
      var yyact, _ := FindShiftAction(T, yystack[yytos].stateno, major);
      if yyact < T.MinReduce() {
        Shift(yyact, major, minor);
        again := false;
      } else if yyact < T.ErrorAction() {
        Reduce(yyact - T.MinReduce());
        again := yytos > 0;
      } else {
        SyntaxError(major, minor);
        return false;
      }
      if yytos == 0 {
        NoteEvent(Discarded(major, minor));
      } else if again {
        FeedUnfolds(T, C, Limit(), Cfg(), major, minor);
      }
    }

    /** One call of the parser with one token. */
    method Parse(major: nat, minor: Token)
      requires Valid() && major < T.nTerminal
      modifies this`log, this`yytos, this`nErr, yystack
      ensures Valid() && Cfg() == Feed(T, C, Limit(), old(Cfg()), major, minor)
    {
      hide Inv, Errors, Layout, Room, Feed;
      ghost var result := Feed(T, C, Limit(), Cfg(), major, minor);
      var again := Round(major, minor);
      while again
        invariant Valid()
        invariant if again then Feed(T, C, Limit(), Cfg(), major, minor) == result else Cfg() == result
        invariant again ==> 0 <= Room(C, Limit(), Stack())
        decreases again, Room(C, Limit(), Stack())
      {
        again := Round(major, minor);
      }
    }

    /** A whole input.  From a new parser this is the run that the theorems speak of. */
    method ParseAll(tokens: Input)
      requires Valid() && Tokens(T, tokens)
      modifies this`log, this`yytos, this`nErr, yystack
      ensures Valid() && WellFormed(T, C) && Cfg() == Run(T, C, Limit(), old(Cfg()), tokens)
      ensures old(Cfg()) == INITIAL ==> Cfg() == FreshRun(T, C, Limit(), tokens)
    {
      hide Feed, WellFormed, Linked, Errors, Layout;
      for i := 0 to |tokens|
        invariant Valid() && Cfg() == Run(T, C, Limit(), old(Cfg()), tokens[..i])
      {
        assert tokens[..i + 1][..i] == tokens[..i];
        Parse(tokens[i].0, tokens[i].1);
      }
      assert tokens[..|tokens|] == tokens;
    }

    method SyntaxError(major: nat, minor: Token)
      requires Shape()
      modifies this`log, this`nErr
      ensures Shape() && log == old(log) + [Rejected(major, minor)]
    {
      hide Errors;
      nErr := nErr + 1;
      log := log + [Rejected(major, minor)];
      ErrorsPush(old(log), Rejected(major, minor));
    }

    ghost method NoteEvent(ev: Event)
      requires Shape() && ev.Discarded?
      modifies this`log
      ensures Shape() && log == old(log) + [ev]
    {
      hide Errors;
      ErrorsPush(log, ev);
      log := log + [ev];
    }

    /** Destroy whatever is left, top first. */
    method Free()
      requires Valid()
      modifies this`log, this`yytos
      ensures yytos == 0 && log == old(log) + DestroyLog(old(Stack()))
    {
      PopAll();
    }
  }
}

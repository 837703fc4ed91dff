/** The push-down driver as a machine on values.

    A configuration is the stack above its base entry together with the log of everything
    that has happened.  The base entry always holds state 0, so an empty sequence is a stack
    that stands at its base.  `limit` is the number of entries that fit above the base: 99
    in the build with the default stack depth of 100.
 */
module Machine {
  import opened Seqs
  import opened Tables

  datatype Token = Token(z: nat, n: nat)

  /** The semantic value of an entry, as the term of the actions that built it. */
  datatype Minor = Leaf(token: Token) | Built(rule: nat, args: seq<Minor>)

  datatype Entry = Entry(stateno: nat, major: nat, minor: Minor)

  datatype Event =
    | Shifted(e: Entry)
    | Reduced(rule: nat, rhs: seq<Entry>, e: Entry)
    | Accepted(rule: nat, rhs: seq<Entry>)
    | Rejected(major: nat, token: Token)
    | Destroyed(e: Entry)
    | Dropped(e: Entry)
    | Overflowed(onEmptyRule: bool)
    | Discarded(major: nat, token: Token)

  datatype Config = Config(stack: seq<Entry>, log: seq<Event>)

  const INITIAL := Config([], [])

  /** The state field of the n-th entry from the base; entry 0 is the base itself. */
  function StateAt(stack: seq<Entry>, n: nat): nat
    requires n <= |stack|
  {
    if n == 0 then 0 else stack[n - 1].stateno
  }

  function TopCode(stack: seq<Entry>): nat {
    StateAt(stack, |stack|)
  }

  function Minors(es: seq<Entry>): (ms: seq<Minor>)
    ensures |ms| == |es| && forall i :: 0 <= i < |es| ==> ms[i] == es[i].minor
  {
    seq(|es|, i requires 0 <= i < |es| => es[i].minor)
  }

  // ----- what every reachable stack satisfies -----

  function LastSym(T: Tables, r: nat): Sym {
    if Rhs(T, r) == [] then AnyOf([]) else Rhs(T, r)[|Rhs(T, r)| - 1]
  }

  /** The symbol that leads into a state, or the last symbol of a pending rule. */
  function SymOf(T: Tables, C: Certificate, code: nat): Sym {
    if code <= T.maxShift then Access(C, code)
    else if T.IsReduce(code) then LastSym(T, code - T.MinReduce())
    else AnyOf([])
  }

  /** An entry with this state field and symbol may stand directly above state p. */
  ghost predicate Edge(T: Tables, C: Certificate, p: nat, code: nat, major: nat) {
    && T.IsState(p)
    && if code <= T.maxShift then
         code > 0 && Reads(T, major, Access(C, code)) && Advances(T, C, p, code)
       else
         && T.IsReduce(code)
         && LacksLast(T, C, p, code - T.MinReduce())
         && Reads(T, major, LastSym(T, code - T.MinReduce()))
  }

  /** Each entry fits the state below it; only the top may hold a pending reduce code. */
  ghost predicate Linked(T: Tables, C: Certificate, stack: seq<Entry>) {
    forall i :: 0 <= i < |stack| ==> LinkedAt(T, C, stack, i)
  }

  ghost predicate LinkedAt(T: Tables, C: Certificate, stack: seq<Entry>, i: nat)
    requires i < |stack|
  {
    Edge(T, C, StateAt(stack, i), stack[i].stateno, stack[i].major)
  }

  ghost predicate Inv(T: Tables, C: Certificate, limit: nat, stack: seq<Entry>) {
    && WellFormed(T, C)
    && 1 <= limit
    && |stack| <= limit
    && Linked(T, C, stack)
  }

  /** The entries spell the symbols, up to fallback, ANY and optimized-out unit rules. */
  ghost predicate Spells(T: Tables, C: Certificate, es: seq<Entry>, ys: seq<Sym>) {
    |es| == |ys| && forall i :: 0 <= i < |es| ==> EntrySpells(T, C, es[i], ys[i])
  }

  ghost predicate EntrySpells(T: Tables, C: Certificate, e: Entry, y: Sym) {
    && Reads(T, e.major, y)
    && SymOf(T, C, e.stateno) == y
  }

  /** Rule r can be reduced: its right side is on top, and the state below may start it. */
  ghost predicate Ready(T: Tables, C: Certificate, stack: seq<Entry>, r: nat) {
    && r < |T.rules|
    && !OptimizedOut(T, r)
    && |Rhs(T, r)| <= |stack|
    && Spells(T, C, stack[|stack| - |Rhs(T, r)|..], Rhs(T, r))
    && Begins(T, C, StateAt(stack, |stack| - |Rhs(T, r)|), r)
  }

  predicate Begins(T: Tables, C: Certificate, p: nat, r: nat) {
    T.IsState(p) && Item(r, 0) in ItemsAt(C, p)
  }

  lemma LinkedPrefix(T: Tables, C: Certificate, stack: seq<Entry>, n: nat)
    requires Linked(T, C, stack) && n <= |stack|
    ensures Linked(T, C, stack[..n])
  {
    forall i | 0 <= i < n
      ensures LinkedAt(T, C, stack[..n], i)
    {
      assert LinkedAt(T, C, stack, i);
    }
  }

  lemma LinkedPush(T: Tables, C: Certificate, stack: seq<Entry>, e: Entry)
    requires Linked(T, C, stack) && Edge(T, C, TopCode(stack), e.stateno, e.major)
    ensures Linked(T, C, stack + [e])
  {
    var s := stack + [e];
    forall i | 0 <= i < |s|
      ensures LinkedAt(T, C, s, i)
    {
      if i < |stack| {
        assert LinkedAt(T, C, stack, i);
      }
    }
  }

  lemma SpellsSnoc(T: Tables, C: Certificate, es: seq<Entry>, ys: seq<Sym>, e: Entry, y: Sym)
    requires Spells(T, C, es, ys) && EntrySpells(T, C, e, y)
    ensures Spells(T, C, es + [e], ys + [y])
  {
  }

  /** If the n-th state holds a rule up to its dot, the symbols before the dot are the last
      ones below it, and the state beneath them holds the rule with the dot at its start. */
  lemma {:induction false} ItemIsOnStack(T: Tables, C: Certificate, stack: seq<Entry>, n: nat, r: nat, d: nat)
    requires Layout(T) && ItemsOK(T, C) && Linked(T, C, stack) && n <= |stack|
    requires T.IsState(StateAt(stack, n)) && Item(r, d) in ItemsAt(C, StateAt(stack, n))
    ensures r < |T.rules| && d <= |Rhs(T, r)| && d <= n
    ensures Spells(T, C, stack[n - d..n], Rhs(T, r)[..d])
    ensures Begins(T, C, StateAt(stack, n - d), r)
    decreases d
  {
    hide Reads, LacksLast;
    if d > 0 {
      var top := stack[n - 1];
      assert LinkedAt(T, C, stack, n - 1);
      ItemIsOnStack(T, C, stack, n - 1, r, d - 1);
      SpellsSnoc(T, C, stack[n - d..n - 1], Rhs(T, r)[..d - 1], top, Rhs(T, r)[d - 1]);
      SliceSnoc(stack, n - d, n);
      SliceSnoc(Rhs(T, r), 0, d);
    }
  }

  /** Whatever reduction the table calls for, the stack is ready for it. */
  lemma CompleteIsReady(T: Tables, C: Certificate, stack: seq<Entry>, r: nat)
    requires Layout(T) && ItemsOK(T, C) && Linked(T, C, stack)
    requires T.IsState(TopCode(stack)) && Complete(T, C, TopCode(stack), r)
    ensures Ready(T, C, stack, r)
  {
    var n, d := |stack|, |Rhs(T, r)|;
    ItemIsOnStack(T, C, stack, n, r, d);
    assert Rhs(T, r)[..d] == Rhs(T, r);
    assert stack[n - d..n] == stack[n - d..];
  }

  /** What a pending code on top says about its entry and the state below. */
  lemma PendingEntry(T: Tables, C: Certificate, stack: seq<Entry>)
    requires Layout(T) && Linked(T, C, stack) && T.IsReduce(TopCode(stack))
    ensures var r, n := TopCode(stack) - T.MinReduce(), |stack|;
      && n > 0 && r < |T.rules| && !OptimizedOut(T, r) && |Rhs(T, r)| > 0
      && T.IsState(StateAt(stack, n - 1))
      && Item(r, |Rhs(T, r)| - 1) in ItemsAt(C, StateAt(stack, n - 1))
      && EntrySpells(T, C, stack[n - 1], LastSym(T, r))
  {
    hide Reads;
    assert LinkedAt(T, C, stack, |stack| - 1);
  }

  lemma PendingIsReady(T: Tables, C: Certificate, stack: seq<Entry>)
    requires Layout(T) && ItemsOK(T, C) && Linked(T, C, stack)
    requires T.IsReduce(TopCode(stack))
    ensures Ready(T, C, stack, TopCode(stack) - T.MinReduce())
    ensures |Rhs(T, TopCode(stack) - T.MinReduce())| > 0
  {
    hide Layout, Spells, ItemsOK, EntrySpells, Linked, Begins;
    PendingEntry(T, C, stack);
    var n, top := |stack|, stack[|stack| - 1];
    var r := TopCode(stack) - T.MinReduce();
    var d := |Rhs(T, r)|;
    ItemIsOnStack(T, C, stack, n - 1, r, d - 1);
    SpellsSnoc(T, C, stack[n - d..n - 1], Rhs(T, r)[..d - 1], top, LastSym(T, r));
    SliceSnoc(stack, n - d, n);
    SliceSnoc(Rhs(T, r), 0, d);
    assert Rhs(T, r)[0..d] == Rhs(T, r);
    assert stack[n - d..n] == stack[n - d..];
  }

  lemma ShiftFits(T: Tables, C: Certificate, q: nat, t: nat, c: nat, a: nat)
    requires Layout(T) && ItemsOK(T, C) && T.IsState(q)
    requires t < T.nTerminal && c in Readings(T, t)
    requires a < T.MinReduce() && MoveOK(T, C, q, a, c)
    ensures Edge(T, C, q, T.Stored(a), t)
  {
    assert StandsFor(T, t, [], c);
  }

  /** The action found is a shift that fits, a reduction the stack is ready for, or the
      error action: the driver's three branches, and never anything else. */
  lemma ActionFits(T: Tables, C: Certificate, stack: seq<Entry>, t: nat)
    requires WellFormed(T, C) && Linked(T, C, stack) && t < T.nTerminal
    requires T.IsState(TopCode(stack)) || T.IsReduce(TopCode(stack))
    ensures var a := ShiftAction(T, TopCode(stack), t);
      && (a < T.MinReduce() ==>
            && (a <= T.maxShift || T.IsShiftReduce(a))
            && Edge(T, C, TopCode(stack), T.Stored(a), t))
      && (T.IsReduce(a) ==> Ready(T, C, stack, a - T.MinReduce()))
      && a <= T.ErrorAction()
  {
    hide GotosOK, WeightsOK, Ready, Edge, Linked;
    var q := TopCode(stack);
    if q >= T.MinReduce() {
      PendingIsReady(T, C, stack);
    } else {
      var c := FirstHit(T, q, Readings(T, t));
      var a := ShiftAction(T, q, t);
      if c.Some? {
        ReadingsAreTerminals(T, t);
        assert ShiftCellOK(T, C, q, c.value, a);
        if a < T.MinReduce() {
          ShiftFits(T, C, q, t, c.value, a);
        } else if a < T.ErrorAction() {
          CompleteIsReady(T, C, stack, a - T.MinReduce());
        }
      } else {
        assert DefaultOK(T, C, q, T.dflt[q]);
        if T.IsReduce(a) {
          CompleteIsReady(T, C, stack, a - T.MinReduce());
        }
      }
    }
  }

  lemma ReadingsAreTerminals(T: Tables, t: nat)
    requires Layout(T) && t < T.nTerminal
    ensures forall c :: c in Readings(T, t) ==> c < T.nTerminal
  {
    assert FallbackOK(T, t);
  }
}

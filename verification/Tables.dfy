/** The packed tables of a LEMON parser and the certificate that makes them trustworthy.

    `Tables` holds what the generator emits: yy_action, yy_lookahead, the two offset
    tables, yy_default, yyFallback, and the grammar rules behind yyRuleInfo.  Action codes
    are the generator's integers, in its order: shift, shift-reduce, reduce, error, accept.

    `Certificate` is the evidence a reader of the generator's report would use: the items of
    each state, the symbol that leads into it, and a weight for every symbol.
 */
module Tables {
  import opened Wrappers

  /** One position of a right side: a symbol, or a class of alternative terminals. */
  datatype Sym = One(s: nat) | AnyOf(ts: seq<nat>)

  /** A grammar rule.  An optimized-out rule is a unit rule that the generator has removed
      from the tables: its effect is folded into the goto of its right side. */
  datatype Rule = Rule(lhs: nat, rhs: seq<Sym>, optimizedOut: bool)

  datatype Item = Item(rule: nat, dot: nat)

  datatype Tables = Tables(
    action: seq<nat>,
    lookahead: seq<nat>,
    shiftOfst: seq<int>,
    reduceOfst: seq<int>,
    reduceUseDflt: int,
    dflt: seq<nat>,
    fallback: seq<nat>,
    rules: seq<Rule>,
    nTerminal: nat,
    nSymbol: nat,
    wildcard: nat,
    start: nat,
    maxShift: nat,
    minShiftReduce: nat) {
    function MinReduce(): nat { minShiftReduce + |rules| }

    function ErrorAction(): nat { MinReduce() + |rules| }

    function AcceptAction(): nat { ErrorAction() + 1 }

    predicate IsState(a: int) { 0 <= a <= maxShift }

    predicate IsShiftReduce(a: int) { minShiftReduce <= a < MinReduce() }

    predicate IsReduce(a: int) { MinReduce() <= a < ErrorAction() }

    /** What is stored in an entry's state field for a shift or goto action. */
    function Stored(a: nat): nat {
      if a > maxShift then a + |rules| else a
    }
  }

  datatype Certificate = Certificate(
    items: seq<set<Item>>,
    access: seq<Sym>,
    weight: seq<int>,
    k: nat,
    wmax: nat)

  // ----- reading the grammar and the certificate -----

  function Rhs(T: Tables, r: nat): seq<Sym> {
    if r < |T.rules| then T.rules[r].rhs else []
  }

  function Lhs(T: Tables, r: nat): nat {
    if r < |T.rules| then T.rules[r].lhs else 0
  }

  predicate OptimizedOut(T: Tables, r: nat) {
    r < |T.rules| && T.rules[r].optimizedOut
  }

  function ItemsAt(C: Certificate, q: nat): set<Item> {
    if q < |C.items| then C.items[q] else {}
  }

  function Access(C: Certificate, q: nat): Sym {
    if q < |C.access| then C.access[q] else AnyOf([])
  }

  // ----- reading the packed tables -----

  function Cell(T: Tables, ofst: int, x: nat): Option<nat> {
    var i := ofst + x;
    if 0 <= i < |T.action| && i < |T.lookahead| && T.lookahead[i] == x then Some(T.action[i]) else None
  }

  function ShiftEntry(T: Tables, q: nat, x: nat): Option<nat> {
    if q < |T.shiftOfst| then Cell(T, T.shiftOfst[q], x) else None
  }

  function GotoEntry(T: Tables, q: nat, x: nat): Option<nat> {
    if q < |T.reduceOfst| then Cell(T, T.reduceOfst[q], x) else None
  }

  function Default(T: Tables, q: nat): nat {
    if q < |T.dflt| then T.dflt[q] else T.ErrorAction()
  }

  function Fallback(T: Tables, t: nat): nat {
    if t < |T.fallback| then T.fallback[t] else 0
  }

  /** What the token t may be read as, best reading first: itself, its fallback, and ANY
      unless t is the end of input. */
  function Readings(T: Tables, t: nat): seq<nat> {
    [t] + (if Fallback(T, t) != 0 then [Fallback(T, t)] else [])
    + (if t > 0 then [T.wildcard] else [])
  }

  function FirstHit(T: Tables, q: nat, cols: seq<nat>): (c: Option<nat>)
    ensures c.Some? ==> c.value in cols && ShiftEntry(T, q, c.value).Some?
    ensures c.None? <==> forall x :: x in cols ==> ShiftEntry(T, q, x).None?
  {
    if cols == [] then None
    else if ShiftEntry(T, q, cols[0]).Some? then Some(cols[0])
    else FirstHit(T, q, cols[1..])
  }

  /** The action for state field `code` and lookahead t: a pending reduce code fires
      whatever the token; a state takes the entry of the best reading that has one, and
      its default action otherwise. */
  function ShiftAction(T: Tables, code: nat, t: nat): nat {
    if code >= T.MinReduce() then code
    else
      var c := FirstHit(T, code, Readings(T, t));
      if c.Some? then ShiftEntry(T, code, c.value).value else Default(T, code)
  }

  // ----- well-formed tables -----

  predicate RuleOK(T: Tables, r: nat) {
    && T.nTerminal <= Lhs(T, r) < T.nSymbol
    && (forall i :: 0 <= i < |Rhs(T, r)| ==> SymOK(T, Rhs(T, r)[i]))
    && (OptimizedOut(T, r) ==> |Rhs(T, r)| == 1 && Rhs(T, r)[0].One? && T.nTerminal <= Rhs(T, r)[0].s)
  }

  predicate SymOK(T: Tables, y: Sym) {
    match y
    case One(s) => s < T.nSymbol
    case AnyOf(ts) => forall t :: t in ts ==> t < T.nTerminal
  }

  predicate FallbackOK(T: Tables, t: nat) {
    var f := Fallback(T, t);
    f != 0 ==> f < T.nTerminal && Fallback(T, f) == 0
  }

  /** A row marked as having only the default has no goto. */
  predicate NoGotos(T: Tables, q: nat) {
    forall x :: 0 <= x < T.nSymbol ==> GotoEntry(T, q, x).None?
  }

  /** The sizes and ranges the driver relies on without looking at any item. */
  predicate Layout(T: Tables) {
    && |T.lookahead| == |T.action|
    && |T.shiftOfst| == T.maxShift + 1
    && |T.dflt| == T.maxShift + 1
    && |T.reduceOfst| <= T.maxShift + 1
    && (forall q :: 0 <= q < |T.reduceOfst| && T.reduceOfst[q] == T.reduceUseDflt ==> NoGotos(T, q))
    && T.maxShift < T.minShiftReduce
    && 0 < T.wildcard < T.nTerminal <= T.nSymbol
    && Fallback(T, 0) == 0
    && (forall t :: 0 <= t < T.nTerminal ==> FallbackOK(T, t))
    && (forall q :: 0 <= q <= T.maxShift ==> 0 <= T.shiftOfst[q] + T.wildcard)
    && (forall r :: 0 <= r < |T.rules| ==> RuleOK(T, r))
  }

  predicate Matches(y: Sym, s: nat) {
    match y
    case One(s') => s == s'
    case AnyOf(ts) => s in ts
  }

  /** `chain` lists optimized-out unit rules that lift x, one after the other, to s. */
  predicate UnitChain(T: Tables, x: nat, chain: seq<nat>, s: nat)
    decreases |chain|
  {
    if chain == [] then x == s
    else
      && OptimizedOut(T, chain[0])
      && Rhs(T, chain[0]) == [One(x)]
      && UnitChain(T, Lhs(T, chain[0]), chain[1..], s)
  }

  /** Symbol x on the stack stands for symbol s: a token is read as itself, its fallback or
      ANY; a nonterminal is lifted by the optimized-out rules of `chain`. */
  predicate StandsFor(T: Tables, x: nat, chain: seq<nat>, s: nat) {
    && x < T.nSymbol
    && if x < T.nTerminal then s in Readings(T, x) && chain == [] else UnitChain(T, x, chain, s)
  }

  ghost predicate Reads(T: Tables, x: nat, y: Sym) {
    exists chain, s :: StandsFor(T, x, chain, s) && Matches(y, s)
  }

  /** Every item of q whose dot has moved comes from an item of p by moving over the symbol
      that leads into q. */
  predicate Advances(T: Tables, C: Certificate, p: nat, q: nat) {
    forall i: Item :: i in ItemsAt(C, q) && i.dot > 0 ==>
      && i.rule < |T.rules|
      && i.dot <= |Rhs(T, i.rule)|
      && Item(i.rule, i.dot - 1) in ItemsAt(C, p)
      && Rhs(T, i.rule)[i.dot - 1] == Access(C, q)
  }

  /** State p holds rule r with only its last symbol missing. */
  predicate LacksLast(T: Tables, C: Certificate, p: nat, r: nat) {
    && r < |T.rules|
    && !OptimizedOut(T, r)
    && |Rhs(T, r)| > 0
    && Item(r, |Rhs(T, r)| - 1) in ItemsAt(C, p)
  }

  /** State p holds rule r complete. */
  predicate Complete(T: Tables, C: Certificate, p: nat, r: nat) {
    && r < |T.rules|
    && !OptimizedOut(T, r)
    && Item(r, |Rhs(T, r)|) in ItemsAt(C, p)
  }

  /** Moving from p by the shift or goto action a over a symbol that stands for s. */
  predicate MoveOK(T: Tables, C: Certificate, p: nat, a: nat, s: nat) {
    if a <= T.maxShift then
      a > 0 && Matches(Access(C, a), s) && Advances(T, C, p, a)
    else
      && T.IsShiftReduce(a)
      && LacksLast(T, C, p, a - T.minShiftReduce)
      && Matches(Rhs(T, a - T.minShiftReduce)[|Rhs(T, a - T.minShiftReduce)| - 1], s)
  }

  predicate ShiftCellOK(T: Tables, C: Certificate, q: nat, x: nat, a: nat) {
    if a < T.MinReduce() then MoveOK(T, C, q, a, x)
    else if a < T.ErrorAction() then Complete(T, C, q, a - T.MinReduce())
    else a == T.ErrorAction()
  }

  predicate DefaultOK(T: Tables, C: Certificate, q: nat, a: nat) {
    if T.IsReduce(a) then Complete(T, C, q, a - T.MinReduce()) else a == T.ErrorAction()
  }

  /** Where a rule with left side x may start, the goto entry for x exists and fits. */
  ghost predicate GotoCellOK(T: Tables, C: Certificate, q: nat, x: nat) {
    var a := GotoEntry(T, q, x);
    && a.Some?
    && (if a.value < T.MinReduce()
        then exists chain, s :: StandsFor(T, x, chain, s) && MoveOK(T, C, q, a.value, s)
        else a.value == T.AcceptAction() && q == 0 && x == T.start)
  }

  function MajorWeight(C: Certificate, x: nat): int {
    if x < |C.weight| then C.weight[x] else 0
  }

  function SymWeight(C: Certificate, y: Sym): int {
    match y
    case One(s) => MajorWeight(C, s)
    case AnyOf(_) => 0 - C.k
  }

  function RhsWeight(C: Certificate, ys: seq<Sym>): int {
    if ys == [] then 0 else RhsWeight(C, ys[..|ys| - 1]) + SymWeight(C, ys[|ys| - 1])
  }

  /** Every terminal weighs -k, and a left side outweighs its right side. */
  predicate WeightsOK(T: Tables, C: Certificate) {
    && |C.weight| == T.nSymbol
    && (forall s :: 0 <= s < T.nSymbol ==> MajorWeight(C, s) <= C.wmax)
    && (forall t :: 0 <= t < T.nTerminal ==> MajorWeight(C, t) == 0 - C.k)
    && (forall r :: 0 <= r < |T.rules| ==> RuleGains(T, C, r))
  }

  predicate RuleGains(T: Tables, C: Certificate, r: nat) {
    RhsWeight(C, Rhs(T, r)) < MajorWeight(C, Lhs(T, r))
  }

  /** The certificate has a row for each state, and state 0 only holds rules not yet begun. */
  ghost predicate ItemsOK(T: Tables, C: Certificate) {
    && (forall i: Item :: i in ItemsAt(C, 0) ==> i.dot == 0)
    && (forall q, i: Item :: 0 <= q <= T.maxShift && i in ItemsAt(C, q) && i.dot == 0 ==> i.rule < |T.rules|)
  }

  predicate ShiftsOK(T: Tables, C: Certificate) {
    && (forall q, x :: 0 <= q <= T.maxShift && 0 <= x < T.nTerminal && ShiftEntry(T, q, x).Some?
          ==> ShiftCellOK(T, C, q, x, ShiftEntry(T, q, x).value))
    && (forall q :: 0 <= q <= T.maxShift ==> DefaultOK(T, C, q, Default(T, q)))
  }

  ghost predicate GotosOK(T: Tables, C: Certificate) {
    forall q, i: Item :: 0 <= q <= T.maxShift && i in ItemsAt(C, q) && i.dot == 0
      ==> GotoCellOK(T, C, q, Lhs(T, i.rule))
  }

  ghost predicate WellFormed(T: Tables, C: Certificate) {
    && Layout(T)
    && ItemsOK(T, C)
    && ShiftsOK(T, C)
    && GotosOK(T, C)
    && WeightsOK(T, C)
  }
}

/** Every sentence is accepted, on tables whose certificate also says what may follow each item. */
module Completeness {
  import opened Wrappers
  import opened Tables
  import opened Grammar
  import opened Machine
  import opened Driver
  import opened Theorems
  import opened Acceptance

  // ----- syntax trees -----

  /** A leaf is a token of type t that is read as s. */
  datatype Tree = Tok(s: nat, t: nat, token: Token) | Node(rule: nat, kids: seq<Tree>)

  function Symbol(T: Tables, x: Tree): nat {
    match x
    case Tok(s, _, _) => s
    case Node(r, _) => Lhs(T, r)
  }

  predicate Valid(T: Tables, x: Tree)
    decreases x
  {
    match x
    case Tok(s, t, _) => t < T.nTerminal && s in Readings(T, t)
    case Node(r, kids) =>
      && r < |T.rules| && |kids| == |Rhs(T, r)|
      && forall i :: 0 <= i < |kids| ==> Valid(T, kids[i]) && Matches(Rhs(T, r)[i], Symbol(T, kids[i]))
  }

  function Yield(x: Tree): Input
    decreases x, 1
  {
    match x
    case Tok(_, t, token) => [(t, token)]
    case Node(_, kids) => YieldAll(kids)
  }

  function YieldAll(xs: seq<Tree>): Input
    decreases xs, 0
  {
    if xs == [] then [] else YieldAll(xs[..|xs| - 1]) + Yield(xs[|xs| - 1])
  }

  lemma {:induction false} YieldConcat(xs: seq<Tree>, ys: seq<Tree>)
    ensures YieldAll(xs + ys) == YieldAll(xs) + YieldAll(ys)
    decreases |ys|
  {
    hide Yield;
    if ys == [] {
      assert xs + ys == xs;
    } else {
      var n := |ys| - 1;
      assert (xs + ys)[..|xs + ys| - 1] == xs + ys[..n] && (xs + ys)[|xs + ys| - 1] == ys[n];
      YieldConcat(xs, ys[..n]);
    }
  }

  lemma YieldOne(x: Tree)
    ensures YieldAll([x]) == Yield(x)
  {
    hide Yield;
    assert [x][..0] == [];
  }

  /** The semantic value that the actions build for a tree; optimized-out unit rules build none. */
  function Value(T: Tables, x: Tree): Minor
    decreases x, 1
  {
    match x
    case Tok(_, _, token) => Leaf(token)
    case Node(r, kids) => if OptimizedOut(T, r) && |kids| == 1 then Value(T, kids[0]) else Built(r, Values(T, kids))
  }

  function Values(T: Tables, xs: seq<Tree>): (ms: seq<Minor>)
    ensures |ms| == |xs| && forall i :: 0 <= i < |ms| ==> ms[i] == Value(T, xs[i])
    decreases xs, 0
  {
    seq(|xs|, i requires 0 <= i < |xs| => Value(T, xs[i]))
  }

  /** Entries that parsing the tree needs at most. */
  function Height(x: Tree): (h: nat)
    ensures h > 0
    decreases x, 1
  {
    match x
    case Tok(_, _, _) => 1
    case Node(_, kids) => HeightAll(kids) + 1
  }

  function HeightAll(xs: seq<Tree>): nat
    decreases xs, 0
  {
    if xs == [] then 0
    else
      var before, here := HeightAll(xs[..|xs| - 1]), |xs| - 1 + Height(xs[|xs| - 1]);
      if before > here then before else here
  }

  lemma {:induction false} HeightOf(xs: seq<Tree>, i: nat)
    requires i < |xs|
    ensures i + Height(xs[i]) <= HeightAll(xs)
    decreases |xs|
  {
    hide Height;
    if i < |xs| - 1 {
      HeightOf(xs[..|xs| - 1], i);
    }
  }

  // ----- every derivation has a tree -----

  predicate Forest(T: Tables, form: seq<nat>, xs: seq<Tree>) {
    && |xs| == |form|
    && forall i :: 0 <= i < |xs| ==> Valid(T, xs[i]) && Symbol(T, xs[i]) == form[i]
  }

  lemma ForestSlice(T: Tables, form: seq<nat>, xs: seq<Tree>, i: nat, j: nat)
    requires Forest(T, form, xs) && i <= j <= |xs|
    ensures Forest(T, form[i..j], xs[i..j])
  {
    hide Valid, Symbol;
  }

  lemma ForestConcat(T: Tables, f: seq<nat>, xs: seq<Tree>, g: seq<nat>, ys: seq<Tree>)
    requires Forest(T, f, xs) && Forest(T, g, ys)
    ensures Forest(T, f + g, xs + ys)
  {
    hide Valid, Symbol;
  }

  lemma LeafForest(T: Tables, s: nat, t: nat, token: Token)
    requires t < T.nTerminal && s in Readings(T, t)
    ensures Forest(T, [s], [Tok(s, t, token)])
    ensures YieldAll([Tok(s, t, token)]) == [(t, token)]
  {
    hide Readings;
    YieldOne(Tok(s, t, token));
  }

  lemma {:induction false} TokenForest(T: Tables, tokens: Input, ys: seq<nat>) returns (xs: seq<Tree>)
    requires Tokens(T, tokens) && ReadAs(T, Types(tokens), ys)
    ensures Forest(T, ys, xs) && YieldAll(xs) == tokens
    decreases |tokens|
  {
    hide Readings, Forest, YieldAll;
    if tokens == [] {
      xs := [];
      NoTrees(T);
    } else {
      var n := |tokens| - 1;
      var front := TokenForest(T, tokens[..n], ys[..n]);
      var last := Tok(ys[n], tokens[n].0, tokens[n].1);
      xs := front + [last];
      LeafForest(T, ys[n], tokens[n].0, tokens[n].1);
      ForestConcat(T, ys[..n], front, [ys[n]], [last]);
      YieldConcat(front, [last]);
      assert ys == ys[..n] + [ys[n]];
      assert tokens == tokens[..n] + [(tokens[n].0, tokens[n].1)];
    }
  }

  lemma NoTrees(T: Tables)
    ensures Forest(T, [], []) && YieldAll([]) == []
  {
  }

  lemma NodeForest(T: Tables, r: nat, mid: seq<nat>, xs: seq<Tree>)
    requires r < |T.rules| && Instance(Rhs(T, r), mid) && Forest(T, mid, xs)
    ensures Forest(T, [Lhs(T, r)], [Node(r, xs)])
  {
  }

  /** Folding the trees of a right side into one tree of the left side. */
  lemma FoldForest(T: Tables, a: seq<nat>, r: nat, b: seq<nat>, before: seq<nat>, mid: seq<nat>, after: seq<nat>,
                   xs: seq<Tree>) returns (ys: seq<Tree>)
    requires r < |T.rules| && RewritesAt(T, a, r, b, before, mid, after) && Forest(T, b, xs)
    ensures Forest(T, a, ys) && YieldAll(ys) == YieldAll(xs)
  {
    hide Forest, YieldAll, Instance, AllTerminals;
    var n := ForestLength(T, b, xs);
    var i, j := |before|, |before| + |mid|;
    var x := Node(r, xs[i..j]);
    ys := xs[..i] + [x] + xs[j..];
    ForestSlice(T, b, xs, 0, i);
    ForestSlice(T, b, xs, i, j);
    ForestSlice(T, b, xs, j, n);
    assert b[0..i] == before && b[i..j] == mid && b[j..n] == after && xs[0..i] == xs[..i] && xs[j..n] == xs[j..];
    NodeForest(T, r, mid, xs[i..j]);
    ForestConcat(T, before, xs[..i], [Lhs(T, r)], [x]);
    ForestConcat(T, before + [Lhs(T, r)], xs[..i] + [x], after, xs[j..]);
    FoldYield(r, xs[..i], xs[i..j], xs[j..]);
    assert xs == xs[..i] + xs[i..j] + xs[j..];
  }

  lemma ForestLength(T: Tables, form: seq<nat>, xs: seq<Tree>) returns (n: nat)
    requires Forest(T, form, xs)
    ensures n == |form| == |xs|
  {
    n := |xs|;
  }

  lemma FoldYield(r: nat, front: seq<Tree>, mid: seq<Tree>, back: seq<Tree>)
    ensures YieldAll(front + [Node(r, mid)] + back) == YieldAll(front + mid + back)
  {
    hide YieldAll;
    var x := Node(r, mid);
    YieldOne(x);
    YieldConcat(front, [x]);
    YieldConcat(front, mid);
    YieldConcat(front + [x], back);
    YieldConcat(front + mid, back);
  }

  lemma {:induction false} DerivationForest(T: Tables, form: seq<nat>, rs: seq<nat>, tokens: Input,
                                            ws: seq<nat>)
      returns (xs: seq<Tree>)
    requires Derives(T, form, rs, ws) && Tokens(T, tokens) && ReadAs(T, Types(tokens), ws)
    ensures Forest(T, form, xs) && YieldAll(xs) == tokens
    decreases |rs|
  {
    if rs == [] {
      xs := TokenForest(T, tokens, ws);
    } else {
      var m :| RightmostStep(T, form, rs[0], m) && Derives(T, m, rs[1..], ws);
      var before, mid, after :| RewritesAt(T, form, rs[0], m, before, mid, after);
      var ys := DerivationForest(T, m, rs[1..], tokens, ws);
      xs := FoldForest(T, form, rs[0], m, before, mid, after, ys);
    }
  }

  // ----- what may follow -----

  /** For each state the tokens that may follow each of its items, for each symbol the tokens that
      may begin it, and the symbols that may be empty. */
  datatype Follow = Follow(la: seq<map<Item, set<nat>>>, first: seq<set<nat>>, nullable: set<nat>)

  function LA(L: Follow, q: nat, i: Item): set<nat> {
    if q < |L.la| && i in L.la[q] then L.la[q][i] else {}
  }

  function First(T: Tables, L: Follow, s: nat): set<nat> {
    if T.nTerminal <= s < |L.first| then L.first[s] else {}
  }

  predicate MayRead(T: Tables, y: Sym, t: nat) {
    match y
    case One(s) => s in Readings(T, t)
    case AnyOf(ts) => exists s :: s in ts && s in Readings(T, t)
  }

  /** The tokens that may begin y, each under some reading. */
  function FirstOf(T: Tables, L: Follow, y: Sym): set<nat> {
    (set t | 0 <= t < T.nTerminal && MayRead(T, y, t)) + if y.One? then First(T, L, y.s) else {}
  }

  predicate MayBeEmpty(L: Follow, y: Sym) {
    y.One? && y.s in L.nullable
  }

  /** What may begin ys from position k on, if `after` may follow ys. */
  function FirstFrom(T: Tables, L: Follow, ys: seq<Sym>, k: nat, after: set<nat>): set<nat>
    requires k <= |ys|
    decreases |ys| - k
  {
    if k == |ys| then after
    else FirstOf(T, L, ys[k]) + if MayBeEmpty(L, ys[k]) then FirstFrom(T, L, ys, k + 1, after) else {}
  }

  /** first and nullable are closed under the rules. */
  predicate FirstClosed(T: Tables, L: Follow, r: nat) {
    && FirstFrom(T, L, Rhs(T, r), 0, {}) <= First(T, L, Lhs(T, r))
    && ((forall i :: 0 <= i < |Rhs(T, r)| ==> MayBeEmpty(L, Rhs(T, r)[i])) ==> Lhs(T, r) in L.nullable)
  }

  /** A state that expects a symbol can start every rule for it. */
  predicate StartsClosed(T: Tables, C: Certificate, L: Follow, q: nat, i: Item, r: nat)
    requires i.dot < |Rhs(T, i.rule)|
  {
    Matches(Rhs(T, i.rule)[i.dot], Lhs(T, r)) ==>
      && Item(r, 0) in ItemsAt(C, q)
      && FirstFrom(T, L, Rhs(T, i.rule), i.dot + 1, LA(L, q, i)) <= LA(L, q, Item(r, 0))
  }

  /** The action a moves item i of state q over its next symbol. */
  predicate Carries(T: Tables, C: Certificate, L: Follow, q: nat, i: Item, a: nat) {
    if a <= T.maxShift then
      && Item(i.rule, i.dot + 1) in ItemsAt(C, a)
      && LA(L, q, i) <= LA(L, a, Item(i.rule, i.dot + 1))
    else
      T.IsShiftReduce(a) && a - T.minShiftReduce == i.rule && i.dot + 1 == |Rhs(T, i.rule)|
  }

  predicate TokenCarries(T: Tables, C: Certificate, L: Follow, q: nat, i: Item, t: nat) {
    var a := ShiftAction(T, q, t);
    a < T.MinReduce() && Carries(T, C, L, q, i, a)
  }

  /** A nonterminal moves the item, or the item belongs to an optimized-out rule whose left side
      leads where its right side does. */
  predicate SymbolCarries(T: Tables, C: Certificate, L: Follow, q: nat, i: Item, s: nat) {
    var a := GotoEntry(T, q, s);
    && a.Some? && a.value < T.MinReduce()
    && if OptimizedOut(T, i.rule) then a == GotoEntry(T, q, Lhs(T, i.rule))
       else Carries(T, C, L, q, i, a.value)
  }

  /** Item i of state q is carried on over whatever its dot stands before. */
  predicate ItemClosed(T: Tables, C: Certificate, L: Follow, q: nat, i: Item) {
    if i.dot < |Rhs(T, i.rule)| then
      && (forall r :: 0 <= r < |T.rules| ==> StartsClosed(T, C, L, q, i, r))
      && (forall t :: 0 <= t < T.nTerminal && MayRead(T, Rhs(T, i.rule)[i.dot], t) ==> TokenCarries(T, C, L, q, i, t))
      && (forall s :: T.nTerminal <= s < T.nSymbol && Matches(Rhs(T, i.rule)[i.dot], s) ==>
            SymbolCarries(T, C, L, q, i, s))
    else
      !OptimizedOut(T, i.rule) ==>
        forall a :: a in LA(L, q, i) ==> ShiftAction(T, q, a) == T.MinReduce() + i.rule
  }

  /** State 0 starts every rule of the start symbol, before the end of input. */
  predicate StartClosed(T: Tables, C: Certificate, L: Follow, r: nat) {
    Lhs(T, r) == T.start ==>
      !OptimizedOut(T, r) && Item(r, 0) in ItemsAt(C, 0) && 0 in LA(L, 0, Item(r, 0))
  }

  ghost predicate Closed(T: Tables, C: Certificate, L: Follow) {
    && (forall r :: 0 <= r < |T.rules| ==> FirstClosed(T, L, r) && StartClosed(T, C, L, r))
    && (forall q, i: Item :: 0 <= q <= T.maxShift && i in ItemsAt(C, q) && i.rule < |T.rules|
          ==> ItemClosed(T, C, L, q, i))
    && (forall x :: x in L.nullable ==> T.nTerminal <= x)
    && T.nTerminal <= T.start && GotoEntry(T, 0, T.start) == Some(T.AcceptAction())
  }

  // ----- trees begin as their symbols may -----

  predicate BeginsWell(T: Tables, L: Follow, w: Input, s: nat) {
    if w == [] then s in L.nullable else w[0].0 in FirstOf(T, L, One(s))
  }

  function Width(x: Tree): nat { if x.Node? then |x.kids| + 1 else 0 }

  lemma {:induction false} TreeBegins(T: Tables, C: Certificate, L: Follow, x: Tree)
    requires Layout(T) && Closed(T, C, L) && Valid(T, x)
    ensures BeginsWell(T, L, Yield(x), Symbol(T, x))
    decreases x, Width(x)
  {
    hide Layout, Closed, FirstClosed, FirstFrom, MayBeEmpty;
    if x.Node? {
      RuleClosed(T, C, L, x.rule);
      KidsBegin(T, C, L, x, 0);
      assert x.kids[0..] == x.kids;
      NodeBegins(T, L, x.rule, Yield(x));
    }
  }

  lemma NodeBegins(T: Tables, L: Follow, r: nat, w: Input)
    requires FirstClosed(T, L, r)
    requires if w == [] then forall i :: 0 <= i < |Rhs(T, r)| ==> MayBeEmpty(L, Rhs(T, r)[i])
             else w[0].0 in FirstFrom(T, L, Rhs(T, r), 0, {})
    ensures BeginsWell(T, L, w, Lhs(T, r))
  {
  }

  lemma RuleClosed(T: Tables, C: Certificate, L: Follow, r: nat)
    requires Closed(T, C, L) && r < |T.rules|
    ensures FirstClosed(T, L, r) && StartClosed(T, C, L, r)
    ensures forall s :: s in L.nullable ==> T.nTerminal <= s
  {
    hide ItemClosed, FirstClosed, StartClosed;
  }

  /** One subtree begins as its place in the right side may. */
  lemma {:induction false} KidBegins(T: Tables, C: Certificate, L: Follow, x: Tree, k: nat)
    requires Layout(T) && Closed(T, C, L) && Valid(T, x) && x.Node? && k < |x.kids|
    ensures var w, y := Yield(x.kids[k]), Rhs(T, x.rule)[k];
      if w == [] then MayBeEmpty(L, y) else w[0].0 in FirstOf(T, L, y)
    decreases x, 0
  {
    hide Closed;
    TreeBegins(T, C, L, x.kids[k]);
    RuleClosed(T, C, L, x.rule);
    PlaceBegins(T, L, x.rule, k, Yield(x.kids[k]), Symbol(T, x.kids[k]));
  }

  lemma PlaceBegins(T: Tables, L: Follow, r: nat, k: nat, w: Input, s: nat)
    requires Layout(T) && r < |T.rules| && k < |Rhs(T, r)| && Matches(Rhs(T, r)[k], s)
    requires BeginsWell(T, L, w, s) && forall x :: x in L.nullable ==> T.nTerminal <= x
    ensures var y := Rhs(T, r)[k]; if w == [] then MayBeEmpty(L, y) else w[0].0 in FirstOf(T, L, y)
  {
    assert RuleOK(T, r);
    assert SymOK(T, Rhs(T, r)[k]);
  }

  lemma {:induction false} KidsBegin(T: Tables, C: Certificate, L: Follow, x: Tree, k: nat)
    requires Layout(T) && Closed(T, C, L) && Valid(T, x) && x.Node? && k <= |x.kids|
    ensures var w, ys := YieldAll(x.kids[k..]), Rhs(T, x.rule);
      if w == [] then forall i :: k <= i < |ys| ==> MayBeEmpty(L, ys[i])
      else w[0].0 in FirstFrom(T, L, ys, k, {})
    decreases x, |x.kids| - k
  {
    hide Layout, Closed, Valid, MayBeEmpty, FirstOf, Yield;
    ValidParts(T, x);
    if k < |x.kids| {
      KidBegins(T, C, L, x, k);
      KidsBegin(T, C, L, x, k + 1);
      YieldConcat([x.kids[k]], x.kids[k + 1..]);
      YieldOne(x.kids[k]);
      assert x.kids[k..] == [x.kids[k]] + x.kids[k + 1..];
    }
  }

  lemma ValidParts(T: Tables, x: Tree)
    requires Valid(T, x) && x.Node?
    ensures x.rule < |T.rules| && |x.kids| == |Rhs(T, x.rule)|
    ensures forall i :: 0 <= i < |x.kids| ==> Valid(T, x.kids[i]) && Matches(Rhs(T, x.rule)[i], Symbol(T, x.kids[i]))
  {
  }

  // ----- following a tree -----

  lemma {:induction false} RunConcat(T: Tables, C: Certificate, limit: nat, cfg: Config, w: Input, y: Input)
    requires Inv(T, C, limit, cfg.stack) && Tokens(T, w) && Tokens(T, y)
    ensures Tokens(T, w + y)
    ensures Run(T, C, limit, cfg, w + y) == Run(T, C, limit, Run(T, C, limit, cfg, w), y)
    decreases |y|
  {
    hide Inv, Feed;
    if y == [] {
      assert w + y == w;
    } else {
      var n := |y| - 1;
      assert (w + y)[..|w + y| - 1] == w + y[..n] && (w + y)[|w + y| - 1] == y[n];
      RunConcat(T, C, limit, cfg, w, y[..n]);
    }
  }

  lemma RunOne(T: Tables, C: Certificate, limit: nat, cfg: Config, a: nat, u: Token)
    requires Inv(T, C, limit, cfg.stack) && a < T.nTerminal
    ensures Run(T, C, limit, cfg, [(a, u)]) == Feed(T, C, limit, cfg, a, u)
  {
    hide Inv, Feed;
    assert [(a, u)][..0] == [];
  }

  /** After w, whatever token of `next` comes, s ends up where `to` does. */
  ghost predicate Leads(T: Tables, C: Certificate, limit: nat, s: Config, w: Input, to: Config, next: set<nat>) {
    && Inv(T, C, limit, s.stack) && Inv(T, C, limit, to.stack) && Tokens(T, w)
    && forall a, u :: a in next && a < T.nTerminal ==>
         Feed(T, C, limit, Run(T, C, limit, s, w), a, u) == Feed(T, C, limit, to, a, u)
  }

  lemma LeadsOn(T: Tables, C: Certificate, limit: nat, s: Config, w: Input, via: Config, next: set<nat>,
                y: Input, to: Config, after: set<nat>)
    requires Leads(T, C, limit, s, w, via, next) && Leads(T, C, limit, via, y, to, after)
    requires if y == [] then after <= next else y[0].0 in next
    ensures Leads(T, C, limit, s, w + y, to, after)
  {
    hide Inv, Feed;
    if y == [] {
      assert w + y == w;
      assert Run(T, C, limit, via, y) == via;
    } else {
      var b, rest := y[0], y[1..];
      assert y == [(b.0, b.1)] + rest;
      RunConcat(T, C, limit, s, w, y);
      SplitRun(T, C, limit, Run(T, C, limit, s, w), y);
      SplitRun(T, C, limit, via, y);
    }
  }

  lemma SplitRun(T: Tables, C: Certificate, limit: nat, cfg: Config, y: Input)
    requires Inv(T, C, limit, cfg.stack) && Tokens(T, y) && y != []
    ensures Tokens(T, y[1..])
    ensures Run(T, C, limit, cfg, y) == Run(T, C, limit, Feed(T, C, limit, cfg, y[0].0, y[0].1), y[1..])
  {
    hide Inv, Feed;
    var b := y[0];
    RunConcat(T, C, limit, cfg, [(b.0, b.1)], y[1..]);
    RunOne(T, C, limit, cfg, b.0, b.1);
    assert y == [(b.0, b.1)] + y[1..];
  }

  lemma Stays(T: Tables, C: Certificate, limit: nat, s: Config, next: set<nat>)
    requires Inv(T, C, limit, s.stack)
    ensures Leads(T, C, limit, s, [], s, next)
  {
    hide Inv, Feed;
  }

  /** Only shifts and reductions lie between. */
  predicate Quietly(before: seq<Event>, log: seq<Event>) {
    && before <= log
    && forall j :: |before| <= j < |log| ==> log[j].Shifted? || log[j].Reduced?
  }

  lemma QuietlyOn(a: seq<Event>, b: seq<Event>, c: seq<Event>)
    requires Quietly(a, b) && Quietly(b, c)
    ensures Quietly(a, c)
  {
  }

  function GotoCode(T: Tables, q: nat, s: nat): nat {
    var a := GotoEntry(T, q, s);
    if a.Some? then T.Stored(a.value) else 0
  }

  /** The state field that follows state q over a tree. */
  function Landing(T: Tables, q: nat, x: Tree): nat {
    match x
    case Tok(_, t, _) => T.Stored(ShiftAction(T, q, t))
    case Node(r, _) => GotoCode(T, q, Lhs(T, r))
  }

  /** One more entry on the stack, with this state field and semantic value. */
  predicate OneMore(s: Config, to: Config, code: nat, v: Minor) {
    && |to.stack| == |s.stack| + 1 && s.stack <= to.stack
    && to.stack[|s.stack|].minor == v
    && TopCode(to.stack) == code
    && Quietly(s.log, to.log)
  }

  /** One more entry for each of the first k trees. */
  predicate MoreBy(T: Tables, s: Config, to: Config, kids: seq<Tree>, k: nat) {
    && k <= |kids|
    && |to.stack| == |s.stack| + k && s.stack <= to.stack
    && (forall j :: 0 <= j < k ==> to.stack[|s.stack| + j].minor == Value(T, kids[j]))
    && Quietly(s.log, to.log)
  }

  lemma MoreByOne(T: Tables, s: Config, via: Config, to: Config, kids: seq<Tree>, k: nat, code: nat)
    requires MoreBy(T, s, via, kids, k) && k < |kids| && OneMore(via, to, code, Value(T, kids[k]))
    ensures MoreBy(T, s, to, kids, k + 1)
  {
    hide Value;
    QuietlyOn(s.log, via.log, to.log);
    forall j | 0 <= j < k + 1
      ensures to.stack[|s.stack| + j].minor == Value(T, kids[j])
    {
      if j < k {
        assert to.stack[|s.stack| + j] == via.stack[|s.stack| + j];
      }
    }
  }

  /** A token that an item expects is shifted. */
  lemma ParseToken(T: Tables, C: Certificate, L: Follow, limit: nat, s: Config, i: Item, t: nat, token: Token)
      returns (to: Config)
    requires WellFormed(T, C) && Closed(T, C, L) && Inv(T, C, limit, s.stack) && |s.stack| < limit
    requires T.IsState(TopCode(s.stack)) && i in ItemsAt(C, TopCode(s.stack)) && i.rule < |T.rules|
    requires i.dot < |Rhs(T, i.rule)| && t < T.nTerminal && MayRead(T, Rhs(T, i.rule)[i.dot], t)
    ensures Leads(T, C, limit, s, [(t, token)], to,
                  FirstFrom(T, L, Rhs(T, i.rule), i.dot + 1, LA(L, TopCode(s.stack), i)))
    ensures OneMore(s, to, T.Stored(ShiftAction(T, TopCode(s.stack), t)), Leaf(token))
  {
    hide WellFormed, Inv, Ready, Edge, Feed, Room, FirstFrom, ReduceStep, Goto;
    var q := TopCode(s.stack);
    ItemIsClosed(T, C, L, q, i);
    assert TokenCarries(T, C, L, q, i, t);
    Codes(T, C, q);
    to := Feed(T, C, limit, s, t, token);
    FeedUnfolds(T, C, limit, s, t, token);
    RunOne(T, C, limit, s, t, token);
  }

  lemma ItemIsClosed(T: Tables, C: Certificate, L: Follow, q: nat, i: Item)
    requires Closed(T, C, L) && q <= T.maxShift && i in ItemsAt(C, q) && i.rule < |T.rules|
    ensures ItemClosed(T, C, L, q, i)
  {
    hide ItemClosed, FirstClosed, StartClosed;
  }

  lemma Codes(T: Tables, C: Certificate, q: nat)
    requires WellFormed(T, C)
    ensures T.IsState(q) ==> q < T.MinReduce()
    ensures T.maxShift < T.minShiftReduce
  {
  }

  /** Where the first k symbols of rule r lead from a state q that starts it. */
  ghost predicate Follows(T: Tables, C: Certificate, L: Follow, q: nat, r: nat, k: nat, code: nat) {
    if OptimizedOut(T, r) && k > 0 then code == GotoCode(T, q, Lhs(T, r))
    else if k < |Rhs(T, r)| || T.IsState(code) then
      T.IsState(code) && Item(r, k) in ItemsAt(C, code) && LA(L, q, Item(r, 0)) <= LA(L, code, Item(r, k))
    else code == T.MinReduce() + r
  }

  /** Moving over one more tree. */
  lemma FollowsOn(T: Tables, C: Certificate, L: Follow, q: nat, r: nat, k: nat, code: nat, x: Tree)
    requires WellFormed(T, C) && Closed(T, C, L) && r < |T.rules| && k < |Rhs(T, r)| && Valid(T, x)
    requires Follows(T, C, L, q, r, k, code) && (k == 0 ==> code == q) && Matches(Rhs(T, r)[k], Symbol(T, x))
    requires OptimizedOut(T, r) ==> k == 0
    ensures Follows(T, C, L, q, r, k + 1, Landing(T, code, x))
  {
    hide WellFormed, Closed, StartsClosed, ShiftAction;
    Codes(T, C, code);
    SymbolInRange(T, C, x);
    NoTokenForOptimized(T, C, r, k, Symbol(T, x));
    ItemIsClosed(T, C, L, code, Item(r, k));
    if x.Tok? {
      LeafIsRead(T, Rhs(T, r)[k], x);
      assert TokenCarries(T, C, L, code, Item(r, k), x.t);
    } else {
      assert SymbolCarries(T, C, L, code, Item(r, k), Symbol(T, x));
    }
  }

  lemma LeafIsRead(T: Tables, y: Sym, x: Tree)
    requires Valid(T, x) && x.Tok? && Matches(y, x.s)
    ensures x.t < T.nTerminal && MayRead(T, y, x.t)
  {
  }

  lemma NoTokenForOptimized(T: Tables, C: Certificate, r: nat, k: nat, s: nat)
    requires WellFormed(T, C) && r < |T.rules| && k < |Rhs(T, r)| && Matches(Rhs(T, r)[k], s)
    ensures OptimizedOut(T, r) ==> T.nTerminal <= s
  {
    hide ItemsOK, ShiftsOK, GotosOK, WeightsOK;
    assert RuleOK(T, r);
  }

  lemma SymbolInRange(T: Tables, C: Certificate, x: Tree)
    requires WellFormed(T, C) && Valid(T, x)
    ensures Symbol(T, x) < T.nSymbol && (x.Tok? ==> Symbol(T, x) < T.nTerminal)
    ensures x.Node? ==> T.nTerminal <= Symbol(T, x) && (OptimizedOut(T, x.rule) ==> |Rhs(T, x.rule)| == 1)
  {
    hide ItemsOK, ShiftsOK, GotosOK, WeightsOK;
    if x.Node? {
      assert RuleOK(T, x.rule);
    } else {
      ReadingsAreTerminals(T, x.t);
    }
  }

  /** Reducing the finished right side, whatever follows. */
  lemma ReduceFinished(T: Tables, C: Certificate, L: Follow, limit: nat, s: Config, w: Input, via: Config, r: nat,
                       next: set<nat>)
      returns (to: Config)
    requires WellFormed(T, C) && Closed(T, C, L) && r < |T.rules| && !OptimizedOut(T, r)
    requires Leads(T, C, limit, s, w, via, next) && next <= LA(L, TopCode(s.stack), Item(r, 0))
    requires Follows(T, C, L, TopCode(s.stack), r, |Rhs(T, r)|, TopCode(via.stack)) && |s.stack| < limit
    requires |via.stack| == |s.stack| + |Rhs(T, r)| && s.stack <= via.stack && Quietly(s.log, via.log)
    requires var g := GotoEntry(T, TopCode(s.stack), Lhs(T, r)); g.Some? && g.value < T.MinReduce()
    ensures Leads(T, C, limit, s, w, to, next)
    ensures OneMore(s, to, GotoCode(T, TopCode(s.stack), Lhs(T, r)), Built(r, Minors(via.stack[|s.stack|..])))
  {
    hide WellFormed, Closed, Inv, Feed, Ready, Run, ReduceStep, GotoCode, OneMore, GotoEntry, Follows;
    FinishedIsReady(T, C, L, limit, via, TopCode(s.stack), r);
    ReduceKeepsInv(T, C, limit, via, r);
    RuleLeft(T, C, r);
    to := ReduceStep(T, limit, via, r);
    ReduceLands(T, limit, s, via, r);
    forall a, u | a in next && a < T.nTerminal
      ensures Feed(T, C, limit, via, a, u) == Feed(T, C, limit, to, a, u)
    {
      FinishedReduces(T, C, L, via, TopCode(s.stack), r, a);
      FeedUnfolds(T, C, limit, via, a, u);
    }
  }

  lemma ReduceLands(T: Tables, limit: nat, s: Config, via: Config, r: nat)
    requires |via.stack| == |s.stack| + |Rhs(T, r)| && s.stack <= via.stack && Quietly(s.log, via.log)
    requires |s.stack| < limit && T.nTerminal <= Lhs(T, r)
    requires var g := GotoEntry(T, TopCode(s.stack), Lhs(T, r)); g.Some? && g.value < T.MinReduce()
    ensures Goto(T, via.stack, r).Some?
    ensures var to := ReduceStep(T, limit, via, r);
      && to.stack != []
      && OneMore(s, to, GotoCode(T, TopCode(s.stack), Lhs(T, r)), Built(r, Minors(via.stack[|s.stack|..])))
  {
    hide DestroyLog, GotoEntry;
    Beneath(s.stack, via.stack);
  }

  lemma Beneath(below: seq<Entry>, stack: seq<Entry>)
    requires below <= stack
    ensures StateAt(stack, |below|) == TopCode(below) && stack[..|below|] == below
  {
  }

  lemma RuleLeft(T: Tables, C: Certificate, r: nat)
    requires WellFormed(T, C) && r < |T.rules|
    ensures T.nTerminal <= Lhs(T, r) < T.nSymbol
  {
    assert RuleOK(T, r);
  }

  lemma FinishedIsReady(T: Tables, C: Certificate, L: Follow, limit: nat, via: Config, q: nat, r: nat)
    requires Inv(T, C, limit, via.stack) && r < |T.rules| && !OptimizedOut(T, r)
    requires Follows(T, C, L, q, r, |Rhs(T, r)|, TopCode(via.stack))
    ensures Ready(T, C, via.stack, r)
  {
    hide ShiftsOK, GotosOK, WeightsOK, Linked, Ready;
    if T.IsState(TopCode(via.stack)) {
      CompleteIsReady(T, C, via.stack, r);
    } else {
      PendingIsReady(T, C, via.stack);
    }
  }

  lemma FinishedReduces(T: Tables, C: Certificate, L: Follow, via: Config, q: nat, r: nat, a: nat)
    requires Closed(T, C, L) && r < |T.rules| && !OptimizedOut(T, r) && a in LA(L, q, Item(r, 0))
    requires Follows(T, C, L, q, r, |Rhs(T, r)|, TopCode(via.stack))
    ensures ShiftAction(T, TopCode(via.stack), a) == T.MinReduce() + r
  {
    hide Closed, FirstHit, Readings;
    if T.IsState(TopCode(via.stack)) {
      ItemIsClosed(T, C, L, TopCode(via.stack), Item(r, |Rhs(T, r)|));
    }
  }

  lemma {:induction false} ParseKids(T: Tables, C: Certificate, L: Follow, limit: nat, s: Config, x: Tree, k: nat)
      returns (to: Config)
    requires WellFormed(T, C) && Closed(T, C, L) && Inv(T, C, limit, s.stack) && |s.stack| + Height(x) <= limit
    requires T.IsState(TopCode(s.stack)) && Valid(T, x) && x.Node? && k <= |x.kids|
    requires Item(x.rule, 0) in ItemsAt(C, TopCode(s.stack))
    ensures Valid(T, x) && |x.kids| == |Rhs(T, x.rule)|
    ensures Leads(T, C, limit, s, YieldAll(x.kids[..k]), to,
                  FirstFrom(T, L, Rhs(T, x.rule), k, LA(L, TopCode(s.stack), Item(x.rule, 0))))
    ensures MoreBy(T, s, to, x.kids, k)
    ensures Follows(T, C, L, TopCode(s.stack), x.rule, k, TopCode(to.stack))
    decreases x, 2 * k
  {
    hide WellFormed, Closed, Inv, Leads, Valid, FirstFrom, Follows, Yield, YieldAll, Landing, Quietly, Value;
    ValidParts(T, x);
    if k == 0 {
      to := s;
      StartsKids(T, C, L, limit, s, x.rule);
      NoYield(x.kids);
    } else {
      var via := ParseKids(T, C, L, limit, s, x, k - 1);
      to := ParseKid(T, C, L, limit, s, x, k - 1, via);
    }
  }

  lemma NoYield(xs: seq<Tree>)
    ensures xs[..0] == [] && YieldAll([]) == []
  {
  }

  lemma StartsKids(T: Tables, C: Certificate, L: Follow, limit: nat, s: Config, r: nat)
    requires WellFormed(T, C) && Inv(T, C, limit, s.stack) && r < |T.rules|
    requires T.IsState(TopCode(s.stack)) && Item(r, 0) in ItemsAt(C, TopCode(s.stack))
    ensures Follows(T, C, L, TopCode(s.stack), r, 0, TopCode(s.stack)) && Quietly(s.log, s.log)
    ensures Leads(T, C, limit, s, [], s, FirstFrom(T, L, Rhs(T, r), 0, LA(L, TopCode(s.stack), Item(r, 0))))
  {
    hide Inv, WellFormed, FirstFrom;
    Stays(T, C, limit, s, FirstFrom(T, L, Rhs(T, r), 0, LA(L, TopCode(s.stack), Item(r, 0))));
  }

  lemma {:induction false} FirstGrows(T: Tables, L: Follow, ys: seq<Sym>, k: nat, a: set<nat>, b: set<nat>)
    requires k <= |ys| && a <= b
    ensures FirstFrom(T, L, ys, k, a) <= FirstFrom(T, L, ys, k, b)
    decreases |ys| - k
  {
    hide FirstOf;
    if k < |ys| {
      FirstGrows(T, L, ys, k + 1, a, b);
    }
  }

  lemma LeadsFewer(T: Tables, C: Certificate, limit: nat, s: Config, w: Input, to: Config, next: set<nat>,
                   fewer: set<nat>)
    requires Leads(T, C, limit, s, w, to, next) && fewer <= next
    ensures Leads(T, C, limit, s, w, to, fewer)
  {
    hide Inv, Feed;
  }

  /** What a rule expects at position k. */
  lemma Expects(T: Tables, C: Certificate, L: Follow, s: Config, via: Config, r: nat, k: nat)
    requires WellFormed(T, C) && r < |T.rules| && k < |Rhs(T, r)|
    requires Follows(T, C, L, TopCode(s.stack), r, k, TopCode(via.stack))
    requires |via.stack| == |s.stack| + k && s.stack <= via.stack
    ensures OptimizedOut(T, r) ==> k == 0
    ensures k == 0 ==> TopCode(via.stack) == TopCode(s.stack)
    ensures T.IsState(TopCode(via.stack)) && Item(r, k) in ItemsAt(C, TopCode(via.stack))
    ensures LA(L, TopCode(s.stack), Item(r, 0)) <= LA(L, TopCode(via.stack), Item(r, k))
  {
    hide ItemsOK, ShiftsOK, GotosOK, WeightsOK;
    assert RuleOK(T, r);
    if k == 0 {
      assert via.stack == s.stack;
    }
  }

  lemma KidFits(x: Tree, k: nat)
    requires x.Node? && k < |x.kids|
    ensures k + Height(x.kids[k]) < Height(x)
  {
    HeightOf(x.kids, k);
  }

  lemma {:induction false} ParseKid(T: Tables, C: Certificate, L: Follow, limit: nat, s: Config, x: Tree, k: nat,
                                    via: Config)
      returns (to: Config)
    requires WellFormed(T, C) && Closed(T, C, L) && Inv(T, C, limit, s.stack) && |s.stack| + Height(x) <= limit
    requires Valid(T, x) && x.Node? && k < |x.kids| && |x.kids| == |Rhs(T, x.rule)|
    requires Leads(T, C, limit, s, YieldAll(x.kids[..k]), via,
                   FirstFrom(T, L, Rhs(T, x.rule), k, LA(L, TopCode(s.stack), Item(x.rule, 0))))
    requires MoreBy(T, s, via, x.kids, k)
    requires Follows(T, C, L, TopCode(s.stack), x.rule, k, TopCode(via.stack))
    ensures Leads(T, C, limit, s, YieldAll(x.kids[..k + 1]), to,
                  FirstFrom(T, L, Rhs(T, x.rule), k + 1, LA(L, TopCode(s.stack), Item(x.rule, 0))))
    ensures MoreBy(T, s, to, x.kids, k + 1)
    ensures Follows(T, C, L, TopCode(s.stack), x.rule, k + 1, TopCode(to.stack))
    decreases x, 2 * k + 1
  {
    hide WellFormed, Closed, Inv, Valid, FirstFrom, Follows, Yield, YieldAll, Landing, Quietly, Height, Value;
    hide Run, Feed;
    var r, kid, q, code := x.rule, x.kids[k], TopCode(s.stack), TopCode(via.stack);
    ValidParts(T, x);
    Expects(T, C, L, s, via, r, k);
    KidFits(x, k);
    ViaInv(T, C, limit, s, YieldAll(x.kids[..k]), via, FirstFrom(T, L, Rhs(T, r), k, LA(L, q, Item(r, 0))));
    to := ParseTree(T, C, L, limit, via, Item(r, k), kid);
    SymbolInRange(T, C, kid);
    FollowsOn(T, C, L, q, r, k, code, kid);
    MoreByOne(T, s, via, to, x.kids, k, Landing(T, code, kid));
    KidLeads(T, C, L, limit, s, x, k, via, to);
  }

  lemma ViaInv(T: Tables, C: Certificate, limit: nat, s: Config, w: Input, via: Config, next: set<nat>)
    requires Leads(T, C, limit, s, w, via, next)
    ensures Inv(T, C, limit, via.stack)
  {
    hide Inv, Feed;
  }

  lemma KidLeads(T: Tables, C: Certificate, L: Follow, limit: nat, s: Config, x: Tree, k: nat, via: Config, to: Config)
    requires WellFormed(T, C) && Closed(T, C, L)
    requires Valid(T, x) && x.Node? && k < |x.kids| && |x.kids| == |Rhs(T, x.rule)|
    requires Leads(T, C, limit, s, YieldAll(x.kids[..k]), via,
                   FirstFrom(T, L, Rhs(T, x.rule), k, LA(L, TopCode(s.stack), Item(x.rule, 0))))
    requires Leads(T, C, limit, via, Yield(x.kids[k]), to,
                   FirstFrom(T, L, Rhs(T, x.rule), k + 1, LA(L, TopCode(via.stack), Item(x.rule, k))))
    requires LA(L, TopCode(s.stack), Item(x.rule, 0)) <= LA(L, TopCode(via.stack), Item(x.rule, k))
    ensures Leads(T, C, limit, s, YieldAll(x.kids[..k + 1]), to,
                  FirstFrom(T, L, Rhs(T, x.rule), k + 1, LA(L, TopCode(s.stack), Item(x.rule, 0))))
  {
    hide Closed, Valid, Yield, YieldAll, Leads, ItemsOK, ShiftsOK, GotosOK, WeightsOK, Layout, FirstOf;
    var ys, y := Rhs(T, x.rule), Yield(x.kids[k]);
    var low, high := LA(L, TopCode(s.stack), Item(x.rule, 0)), LA(L, TopCode(via.stack), Item(x.rule, k));
    FirstGrows(T, L, ys, k + 1, low, high);
    LeadsFewer(T, C, limit, via, y, to, FirstFrom(T, L, ys, k + 1, high), FirstFrom(T, L, ys, k + 1, low));
    KidBegins(T, C, L, x, k);
    LeadsOn(T, C, limit, s, YieldAll(x.kids[..k]), via, FirstFrom(T, L, ys, k, low), y, to,
            FirstFrom(T, L, ys, k + 1, low));
    YieldSnoc(x.kids, k);
  }

  lemma YieldSnoc(xs: seq<Tree>, k: nat)
    requires k < |xs|
    ensures YieldAll(xs[..k + 1]) == YieldAll(xs[..k]) + Yield(xs[k])
  {
    hide Yield;
    assert xs[..k + 1][..k] == xs[..k];
  }

  /** A tree that an item expects next is parsed into one entry, whatever may follow it. */
  lemma {:induction false} ParseTree(T: Tables, C: Certificate, L: Follow, limit: nat, s: Config, i: Item, x: Tree)
      returns (to: Config)
    requires WellFormed(T, C) && Closed(T, C, L) && Inv(T, C, limit, s.stack) && |s.stack| + Height(x) <= limit
    requires T.IsState(TopCode(s.stack)) && i in ItemsAt(C, TopCode(s.stack)) && i.rule < |T.rules|
    requires i.dot < |Rhs(T, i.rule)| && Valid(T, x) && Matches(Rhs(T, i.rule)[i.dot], Symbol(T, x))
    ensures Leads(T, C, limit, s, Yield(x), to, FirstFrom(T, L, Rhs(T, i.rule), i.dot + 1, LA(L, TopCode(s.stack), i)))
    ensures OneMore(s, to, Landing(T, TopCode(s.stack), x), Value(T, x))
    decreases x, 2 * Width(x) + 2
  {
    hide WellFormed, Closed, Inv, Leads, Follows, YieldAll, GotoCode, ShiftAction, Quietly, FirstOf, MayBeEmpty;
    hide Run, Feed;
    match x
    case Tok(_, t, token) =>
      LeafIsRead(T, Rhs(T, i.rule)[i.dot], x);
      to := ParseToken(T, C, L, limit, s, i, t, token);
    case Node(r, kids) =>
      var q := TopCode(s.stack);
      StartsRule(T, C, L, q, i, r);
      var via := ParseKids(T, C, L, limit, s, x, |kids|);
      assert kids[..|kids|] == kids;
      SymbolInRange(T, C, x);
      ValidParts(T, x);
      to := FinishTree(T, C, L, limit, s, r, kids, via,
                       FirstFrom(T, L, Rhs(T, i.rule), i.dot + 1, LA(L, q, i)));
  }

  /** A state that expects a node's symbol can start the node's rule and has a goto for it. */
  lemma StartsRule(T: Tables, C: Certificate, L: Follow, q: nat, i: Item, r: nat)
    requires WellFormed(T, C) && Closed(T, C, L) && T.IsState(q) && i in ItemsAt(C, q) && i.rule < |T.rules|
    requires i.dot < |Rhs(T, i.rule)| && r < |T.rules| && Matches(Rhs(T, i.rule)[i.dot], Lhs(T, r))
    ensures Item(r, 0) in ItemsAt(C, q)
    ensures FirstFrom(T, L, Rhs(T, i.rule), i.dot + 1, LA(L, q, i)) <= LA(L, q, Item(r, 0))
    ensures GotoEntry(T, q, Lhs(T, r)).Some? && GotoEntry(T, q, Lhs(T, r)).value < T.MinReduce()
  {
    hide Closed, WellFormed, TokenCarries, Carries, FirstFrom;
    ItemIsClosed(T, C, L, q, i);
    RuleLeft(T, C, r);
    assert StartsClosed(T, C, L, q, i, r);
    assert SymbolCarries(T, C, L, q, i, Lhs(T, r));
  }

  /** Once its parts are parsed, a tree becomes one entry. */
  lemma FinishTree(T: Tables, C: Certificate, L: Follow, limit: nat, s: Config, r: nat, kids: seq<Tree>, via: Config,
                   next: set<nat>)
      returns (to: Config)
    requires WellFormed(T, C) && Closed(T, C, L) && r < |T.rules| && |s.stack| < limit && |kids| == |Rhs(T, r)|
    requires Leads(T, C, limit, s, YieldAll(kids), via, LA(L, TopCode(s.stack), Item(r, 0)))
    requires next <= LA(L, TopCode(s.stack), Item(r, 0)) && MoreBy(T, s, via, kids, |kids|)
    requires Follows(T, C, L, TopCode(s.stack), r, |Rhs(T, r)|, TopCode(via.stack))
    requires var g := GotoEntry(T, TopCode(s.stack), Lhs(T, r)); g.Some? && g.value < T.MinReduce()
    requires OptimizedOut(T, r) ==> |Rhs(T, r)| == 1
    ensures Leads(T, C, limit, s, YieldAll(kids), to, next)
    ensures OneMore(s, to, GotoCode(T, TopCode(s.stack), Lhs(T, r)), Value(T, Node(r, kids)))
  {
    hide WellFormed, Closed, Leads, GotoCode, Quietly, YieldAll;
    LeadsFewer(T, C, limit, s, YieldAll(kids), via, LA(L, TopCode(s.stack), Item(r, 0)), next);
    if OptimizedOut(T, r) {
      to := via;
      assert to.stack[|s.stack| + 0].minor == Value(T, kids[0]);
    } else {
      to := ReduceFinished(T, C, L, limit, s, YieldAll(kids), via, r, next);
      assert Minors(via.stack[|s.stack|..]) == Values(T, kids);
    }
  }

  // ----- whole inputs -----

  /** The run ended by accepting es by rule r, after nothing but shifts and reductions. */
  predicate AcceptsAs(cfg: Config, r: nat, es: seq<Entry>, u: Token) {
    && cfg.stack == [] && |cfg.log| >= 2
    && Quietly([], cfg.log[..|cfg.log| - 2])
    && cfg.log[|cfg.log| - 2..] == [Accepted(r, es), Discarded(0, u)]
  }

  /** With a rule of the start symbol on the stack, the end of input accepts. */
  lemma EndAccepts(T: Tables, C: Certificate, L: Follow, limit: nat, via: Config, r: nat, u: Token)
    requires Inv(T, C, limit, via.stack) && Closed(T, C, L) && r < |T.rules| && 0 < T.nTerminal
    requires !OptimizedOut(T, r) && Lhs(T, r) == T.start && 0 in LA(L, 0, Item(r, 0))
    requires |via.stack| == |Rhs(T, r)| && Follows(T, C, L, 0, r, |Rhs(T, r)|, TopCode(via.stack))
    ensures Feed(T, C, limit, via, 0, u) == Config([], via.log + [Accepted(r, via.stack), Discarded(0, u)])
  {
    hide Inv, Closed, Follows, Feed, Ready, ReduceStep, ShiftAction, Goto;
    FinishedIsReady(T, C, L, limit, via, 0, r);
    FinishedReduces(T, C, L, via, 0, r, 0);
    FeedUnfolds(T, C, limit, via, 0, u);
    ReduceToBase(T, C, L, limit, via, r);
  }

  lemma StartsInput(T: Tables, C: Certificate, L: Follow, limit: nat, r: nat)
    requires WellFormed(T, C) && Closed(T, C, L) && r < |T.rules| && Lhs(T, r) == T.start
    ensures !OptimizedOut(T, r) && Item(r, 0) in ItemsAt(C, 0) && 0 in LA(L, 0, Item(r, 0))
    ensures T.IsState(0) && 0 < T.nTerminal && TopCode(INITIAL.stack) == 0
  {
    hide ItemsOK, ShiftsOK, GotosOK, WeightsOK, Closed;
    RuleClosed(T, C, L, r);
  }

  /** A tree of the start symbol is accepted at the end of its input, with its own value. */
  lemma TreeIsAccepted(T: Tables, C: Certificate, L: Follow, limit: nat, x: Tree, u: Token) returns (es: seq<Entry>)
    requires WellFormed(T, C) && Closed(T, C, L) && Height(x) <= limit
    requires Valid(T, x) && x.Node? && Lhs(T, x.rule) == T.start
    ensures Tokens(T, Yield(x) + [(0, u)])
    ensures AcceptsAs(FreshRun(T, C, limit, Yield(x) + [(0, u)]), x.rule, es, u)
    ensures Value(T, x) == Built(x.rule, Minors(es))
  {
    hide WellFormed, Closed, Inv, Follows, YieldAll, Quietly, Run, Feed, Value, Leads, FirstOf, MayBeEmpty;
    var r, n := x.rule, |x.kids|;
    ValidParts(T, x);
    StartsInput(T, C, L, limit, r);
    InitialInv(T, C, limit);
    var via := ParseKids(T, C, L, limit, INITIAL, x, n);
    assert x.kids[..n] == x.kids;
    es := via.stack;
    EndLeads(T, C, limit, Yield(x), via, LA(L, 0, Item(r, 0)), u);
    EndAccepts(T, C, L, limit, via, r, u);
    ValueOf(T, x, es);
    assert (via.log + [Accepted(r, es), Discarded(0, u)])[..|via.log|] == via.log;
  }

  lemma EndLeads(T: Tables, C: Certificate, limit: nat, w: Input, via: Config, next: set<nat>, u: Token)
    requires WellFormed(T, C) && 1 <= limit && 0 in next && 0 < T.nTerminal
    requires Leads(T, C, limit, INITIAL, w, via, next)
    ensures Tokens(T, w + [(0, u)]) && Inv(T, C, limit, via.stack)
    ensures FreshRun(T, C, limit, w + [(0, u)]) == Feed(T, C, limit, via, 0, u)
  {
    hide WellFormed, Inv, Feed, Run;
    RunConcat(T, C, limit, INITIAL, w, [(0, u)]);
    RunOne(T, C, limit, Run(T, C, limit, INITIAL, w), 0, u);
  }

  lemma ValueOf(T: Tables, x: Tree, es: seq<Entry>)
    requires x.Node? && !OptimizedOut(T, x.rule) && |es| == |x.kids|
    requires forall j :: 0 <= j < |es| ==> es[j].minor == Value(T, x.kids[j])
    ensures Value(T, x) == Built(x.rule, Minors(es))
  {
    assert Minors(es) == Values(T, x.kids);
  }

  lemma ReduceToBase(T: Tables, C: Certificate, L: Follow, limit: nat, via: Config, r: nat)
    requires Closed(T, C, L) && 1 <= limit && |via.stack| == |Rhs(T, r)| && Lhs(T, r) == T.start
    ensures Goto(T, via.stack, r).Some?
    ensures ReduceStep(T, limit, via, r) == Config([], via.log + [Accepted(r, via.stack)])
  {
    hide ItemClosed, FirstClosed, StartClosed, GotoEntry, DestroyLog;
    assert via.stack[0..] == via.stack && via.stack[..0] == [];
  }
}

/** The grammar's own notion of a sentence, independent of the tables' actions. */
module Grammar {
  import opened Tables

  predicate AllTerminals(T: Tables, w: seq<nat>) {
    forall i :: 0 <= i < |w| ==> w[i] < T.nTerminal
  }

  /** xs is one way to write the right side ys. */
  predicate Instance(ys: seq<Sym>, xs: seq<nat>) {
    |ys| == |xs| && forall i :: 0 <= i < |ys| ==> Matches(ys[i], xs[i])
  }

  /** a becomes b by rewriting its rightmost nonterminal with rule r. */
  ghost predicate RightmostStep(T: Tables, a: seq<nat>, r: nat, b: seq<nat>) {
    && r < |T.rules|
    && exists before, mid, after :: RewritesAt(T, a, r, b, before, mid, after)
  }

  predicate RewritesAt(T: Tables, a: seq<nat>, r: nat, b: seq<nat>, before: seq<nat>, mid: seq<nat>, after: seq<nat>)
    requires r < |T.rules|
  {
    && AllTerminals(T, after)
    && Instance(Rhs(T, r), mid)
    && a == before + [Lhs(T, r)] + after
    && b == before + mid + after
  }

  /** b is reached from a by rightmost steps with the rules rs, in this order. */
  ghost predicate Derives(T: Tables, a: seq<nat>, rs: seq<nat>, b: seq<nat>)
    decreases |rs|
  {
    if rs == [] then a == b
    else exists m :: RightmostStep(T, a, rs[0], m) && Derives(T, m, rs[1..], b)
  }

  lemma DerivesFirst(T: Tables, a: seq<nat>, r: nat, m: seq<nat>, rs: seq<nat>, b: seq<nat>)
    requires RightmostStep(T, a, r, m) && Derives(T, m, rs, b)
    ensures Derives(T, a, [r] + rs, b)
  {
    assert ([r] + rs)[1..] == rs;
  }

  function Reverse<A>(s: seq<A>): (r: seq<A>)
    ensures |r| == |s|
  {
    if s == [] then [] else Reverse(s[1..]) + [s[0]]
  }

  lemma {:induction false} ReverseSnoc<A>(s: seq<A>, x: A)
    ensures Reverse(s + [x]) == [x] + Reverse(s)
  {
    if s != [] {
      assert (s + [x])[1..] == s[1..] + [x];
      ReverseSnoc(s[1..], x);
    } else {
      assert (s + [x])[1..] == [];
    }
  }

  lemma ReverseStep<A>(s: seq<A>, t: seq<A>)
    requires s != []
    ensures Reverse(s) + t == Reverse(s[1..]) + ([s[0]] + t)
  {
  }

  /** The rules of rs that the driver executes: all but the optimized-out ones. */
  function Executed(T: Tables, rs: seq<nat>): seq<nat> {
    if rs == [] then []
    else (if rs[0] < |T.rules| && OptimizedOut(T, rs[0]) then [] else [rs[0]]) + Executed(T, rs[1..])
  }

  lemma ExecutedFirst(T: Tables, r: nat, rs: seq<nat>)
    ensures Executed(T, [r] + rs)
         == (if r < |T.rules| && OptimizedOut(T, r) then [] else [r]) + Executed(T, rs) {
    assert ([r] + rs)[1..] == rs;
  }

  /** Each token is read as itself, as its fallback or as ANY. */
  predicate ReadAs(T: Tables, tokens: seq<nat>, ys: seq<nat>) {
    |tokens| == |ys| && forall i :: 0 <= i < |ys| ==> ys[i] in Readings(T, tokens[i])
  }

  /** The tokens, suitably read, are a sentence of the grammar, and the fired rules in
      reverse are its rightmost derivation once the optimized-out unit rules are put back. */
  ghost predicate Sentence(T: Tables, tokens: seq<nat>, fired: seq<nat>) {
    exists ys, rs :: SentenceBy(T, tokens, fired, ys, rs)
  }

  ghost predicate SentenceBy(T: Tables, tokens: seq<nat>, fired: seq<nat>, ys: seq<nat>, rs: seq<nat>) {
    && ReadAs(T, tokens, ys)
    && Executed(T, rs) == Reverse(fired)
    && Derives(T, [T.start], rs, ys)
  }

  // ----- what the driver maintains: the stack's symbols derive the tokens shifted -----

  /** The symbols gamma derive ys whatever terminals follow both. */
  ghost predicate Yields(T: Tables, gamma: seq<nat>, rs: seq<nat>, ys: seq<nat>) {
    forall w :: AllTerminals(T, w) ==> Derives(T, gamma + w, rs, ys + w)
  }

  lemma YieldsAlone(T: Tables, gamma: seq<nat>, rs: seq<nat>, ys: seq<nat>)
    requires Yields(T, gamma, rs, ys)
    ensures Derives(T, gamma, rs, ys)
  {
    assert AllTerminals(T, []);
    assert gamma + [] == gamma && ys + [] == ys;
  }

  lemma ReadAsPush(T: Tables, tokens: seq<nat>, ys: seq<nat>, t: nat, s: nat)
    requires ReadAs(T, tokens, ys) && s in Readings(T, t)
    ensures ReadAs(T, tokens + [t], ys + [s])
  {
  }

  lemma YieldsShift(T: Tables, gamma: seq<nat>, rs: seq<nat>, ys: seq<nat>, s: nat)
    requires Yields(T, gamma, rs, ys) && s < T.nTerminal
    ensures Yields(T, gamma + [s], rs, ys + [s])
  {
    hide Derives;
    forall w | AllTerminals(T, w)
      ensures Derives(T, gamma + [s] + w, rs, ys + [s] + w)
    {
      assert AllTerminals(T, [s] + w);
      assert gamma + ([s] + w) == gamma + [s] + w;
      assert ys + ([s] + w) == ys + [s] + w;
    }
  }

  lemma YieldsReduce(T: Tables, before: seq<nat>, mid: seq<nat>, r: nat, rs: seq<nat>, ys: seq<nat>)
    requires r < |T.rules| && Instance(Rhs(T, r), mid)
    requires Yields(T, before + mid, rs, ys)
    ensures Yields(T, before + [Lhs(T, r)], [r] + rs, ys)
  {
    forall w | AllTerminals(T, w)
      ensures Derives(T, before + [Lhs(T, r)] + w, [r] + rs, ys + w)
    {
      assert RewritesAt(T, before + [Lhs(T, r)] + w, r, before + mid + w, before, mid, w);
      DerivesFirst(T, before + [Lhs(T, r)] + w, r, before + mid + w, rs, ys + w);
    }
  }

  /** Lifting the last symbol through optimized-out unit rules. */
  lemma {:induction false} YieldsLift(T: Tables, before: seq<nat>, x: nat, chain: seq<nat>, s: nat, rs: seq<nat>,
                                      ys: seq<nat>)
    requires UnitChain(T, x, chain, s)
    requires Yields(T, before + [x], rs, ys)
    ensures Yields(T, before + [s], Reverse(chain) + rs, ys)
    ensures Executed(T, Reverse(chain) + rs) == Executed(T, rs)
    decreases |chain|
  {
    if chain == [] {
      assert Reverse(chain) + rs == rs;
    } else {
      var c := chain[0];
      assert Matches(Rhs(T, c)[0], x);
      YieldsReduce(T, before, [x], c, rs, ys);
      ExecutedFirst(T, c, rs);
      YieldsLift(T, before, Lhs(T, c), chain[1..], s, [c] + rs, ys);
      ReverseStep(chain, rs);
    }
  }
}

/** lalr.c, what the lookaheads are for: the token after a phrase of a derivation follows the phrase's
    transition, so that the phrase can be reduced. */
module FollowTokens {
  import opened Reachability
  import opened Grammar
  import opened Closure
  import opened LR0
  import opened Paths
  import opened GotoMap
  import opened Relations
  import opened Lalr
  import opened Output

  /** Grammar, automaton, numbered transitions and exact nullable symbols. */
  ghost predicate Exact(g: Packed, A: Automaton, gs: Gotos, nullable: seq<bool>) {
    Setting(g, A, gs, nullable) && forall s: nat :: s < g.nsyms ==> (nullable[s] <==> DerivesEmpty(g.ToCfg(), s))
  }

  ghost predicate World(g: Packed, A: Automaton, gs: Gotos, nullable: seq<bool>) {
    Values(g) && Exact(g, A, gs, nullable)
  }

  lemma TransitionNumber(g: Packed, A: Automaton, gs: Gotos, p: nat, X: nat, q: nat) returns (n: nat)
    requires Canonical(g, A) && GotosOK(g, A, gs) && Goto(A, p, X, q) && g.ntokens <= X < g.nsyms
    ensures IsNumber(A, gs, n, p, X, q) && n < |gs.from| == |gs.to| && gs.to[n] < |A.states| && SymbolOf(A, gs, n) == X
  {
    assert BlockOK(A, gs, X);
    assert Numbered(gs, p, X, q);
    n :| NumberOf(gs, p, X, q, n);
  }

  /** Token t can be shifted in p, perhaps after nonterminals that derive nothing. */
  ghost predicate StartsRead(g: Packed, A: Automaton, gs: Gotos, nullable: seq<bool>, p: nat, t: nat) {
    || (t < g.ntokens && exists q: nat :: Goto(A, p, t, q))
    || exists m: nat :: PassesEmpty(A, gs, nullable, p, m) && ReadBy(g, A, gs, nullable, m, t)
  }

  /** Transition m leaves p over a nonterminal that derives nothing. */
  ghost predicate PassesEmpty(A: Automaton, gs: Gotos, nullable: seq<bool>, p: nat, m: nat) {
    && m < |gs.from| && m < |gs.to| && gs.from[m] == p && gs.to[m] < |A.states|
    && SymbolOf(A, gs, m) < |nullable| && nullable[SymbolOf(A, gs, m)]
  }

  /** What can be read after a transition is what its target starts with. */
  lemma ReadAfter(g: Packed, A: Automaton, gs: Gotos, nullable: seq<bool>, n: nat, t: nat)
    requires n < |gs.from| == |gs.to| && StartsRead(g, A, gs, nullable, gs.to[n], t)
    ensures ReadBy(g, A, gs, nullable, n, t)
  {
    ReachRefl(ReadsRel(g, A, gs, nullable), n);
    if t < g.ntokens && exists q: nat :: Goto(A, gs.to[n], t, q) {
      assert DirectlyReads(g, A, gs, n, t);
    } else {
      var m: nat :| PassesEmpty(A, gs, nullable, gs.to[n], m) && ReadBy(g, A, gs, nullable, m, t);
      var k: nat :| k < |gs.from| && Reach(ReadsRel(g, A, gs, nullable), m, k) && DirectlyReads(g, A, gs, k, t);
      ReachEdge(ReadsRel(g, A, gs, nullable), n, m);
      ReachTrans(ReadsRel(g, A, gs, nullable), n, m, k);
    }
  }

  /** Item i of the state p stands before symbol X. */
  ghost predicate DotBefore(g: Packed, A: Automaton, p: nat, i: nat, X: nat) {
    p < |A.states| && i in ItemsOf(g, A, p) && i < |g.ritem| && g.ritem[i] == X
  }

  /** A rule of X can start where the dot is before X. */
  lemma RuleStarts(g: Packed, A: Automaton, p: nat, i: nat, r: nat)
    requires g.WellFormed() && 3 <= r < |g.rlhs| && DotBefore(g, A, p, i, g.rlhs[r])
    ensures g.rrhs[r] in ItemsOf(g, A, p)
  {
    ClosureIsClosed(g, A.states[p].items);
    assert Predicted(g, g.ritem[i], g.rrhs[r]);
    assert ItemRel(g)(i, g.rrhs[r]);
  }

  /** The dot after k symbols of rule r is before the next one. */
  lemma DotInside(g: Packed, A: Automaton, p: nat, r: nat, k: nat)
    requires g.WellFormed() && p < |A.states| && 3 <= r < |g.rlhs| && k < |g.Rhs(r)| &&
        g.rrhs[r] + k in ItemsOf(g, A, p)
    ensures DotBefore(g, A, p, g.rrhs[r] + k, g.Rhs(r)[k]) && 0 < g.Rhs(r)[k] < g.nsyms && g.Rhs(r)[k] != g.ntokens
  {
    assert g.RuleShape(r);
    RrhsAscends(g, 3, r);
  }

  /** A node of a tree for a symbol of a right-hand side is by a rule past the start rule. */
  lemma NodeRule(g: Packed, t: Tree, X: nat)
    requires g.WellFormed() && t.Node? && Parses(g.ToCfg(), t, X) && X != g.ntokens
    ensures var r := t.rule + 2;
            3 <= r < |g.rlhs| && g.rlhs[r] == X && ParsesAll(g.ToCfg(), t.children, g.Rhs(r)) && X > g.ntokens
  {
    var y := t.rule;
    assert g.ToCfg().productions[y] == Production(g.rlhs[y + 2], g.Rhs(y + 2));
  }

  lemma LeafToken(g: Packed, t: Tree, X: nat)
    requires g.WellFormed() && t.Leaf? && Parses(g.ToCfg(), t, X)
    ensures TokenWith(g, X, t.lexeme.code)
  {}

  lemma {:induction false} EmptyChild(g: Packed, nullable: seq<bool>, t: Tree, X: nat)
    requires g.WellFormed() && |nullable| == g.nsyms &&
        (forall s: nat :: s < g.nsyms ==> (nullable[s] <==> DerivesEmpty(g.ToCfg(), s)))
    requires X < g.nsyms && X != g.ntokens && Parses(g.ToCfg(), t, X) && Yield(t) == []
    ensures nullable[X] && g.ntokens < X
  {
    assert DerivesEmpty(g.ToCfg(), X);
    NodeRule(g, t, X);
  }

  lemma YieldSplit(cs: seq<Tree>, k: nat)
    requires k < |cs|
    ensures YieldAll(cs[k..]) == Yield(cs[k]) + YieldAll(cs[k + 1..])
    ensures YieldAll(cs[..k + 1]) == YieldAll(cs[..k]) + Yield(cs[k])
  {
    assert cs[k..] == [cs[k]] + cs[k + 1..];
    YieldAllConcat([cs[k]], cs[k + 1..]);
    YieldAllOne(cs[k]);
    assert cs[..k + 1] == cs[..k] + [cs[k]];
    YieldAllConcat(cs[..k], [cs[k]]);
  }

  lemma EmptyYield(cs: seq<Tree>, k: nat)
    requires k == |cs|
    ensures YieldAll(cs[k..]) == []
  {
    assert cs[k..] == [];
  }

  lemma WorldFacts(g: Packed, A: Automaton, gs: Gotos, nullable: seq<bool>)
    requires Exact(g, A, gs, nullable)
    ensures g.WellFormed() && Canonical(g, A) && GotosOK(g, A, gs) && |gs.from| == |gs.to|
  {}

  /** A nonterminal that derives nothing leaves the reading to its target. */
  lemma PassedOver(g: Packed, A: Automaton, gs: Gotos, nullable: seq<bool>, p: nat, X: nat, q: nat, tok: nat)
    requires Exact(g, A, gs, nullable) && Goto(A, p, X, q) && g.ntokens <= X < g.nsyms && nullable[X]
    requires StartsRead(g, A, gs, nullable, q, tok)
    ensures StartsRead(g, A, gs, nullable, p, tok)
  {
    var m := TransitionNumber(g, A, gs, p, X, q);
    ReadAfter(g, A, gs, nullable, m, tok);
    assert PassesEmpty(A, gs, nullable, p, m);
  }

  /** The first token of a phrase can be read where the phrase can start. */
  lemma {:induction false} FirstRead(g: Packed, A: Automaton, gs: Gotos, nullable: seq<bool>, p: nat, i: nat, t: Tree,
                                     X: nat) returns (tok: nat)
    requires World(g, A, gs, nullable) && DotBefore(g, A, p, i, X) && 0 < X < g.nsyms && X != g.ntokens
    requires Parses(g.ToCfg(), t, X) && Yield(t) != []
    ensures TokenWith(g, tok, Yield(t)[0].code) && StartsRead(g, A, gs, nullable, p, tok)
    decreases t, 1, 0
  {
    if t.Leaf? {
      tok := X;
      LeafToken(g, t, X);
      var q := GotoExists(g, A, p, i);
    } else {
      NodeRule(g, t, X);
      RuleStarts(g, A, p, i, t.rule + 2);
      assert t.children[0..] == t.children;
      tok := FirstReadFrom(g, A, gs, nullable, p, t, 0);
    }
  }

  /** The first token of the rest of a right-hand side can be read where the dot is before it. */
  lemma {:induction false} FirstReadFrom(g: Packed, A: Automaton, gs: Gotos, nullable: seq<bool>, p: nat, t: Tree,
                                         k: nat) returns (tok: nat)
    requires World(g, A, gs, nullable) && p < |A.states| && t.Node? && 3 <= t.rule + 2 < |g.rlhs| && k <= |t.children|
    requires ParsesAll(g.ToCfg(), t.children, g.Rhs(t.rule + 2)) && g.rrhs[t.rule + 2] + k in ItemsOf(g, A, p)
    requires YieldAll(t.children[k..]) != []
    ensures TokenWith(g, tok, YieldAll(t.children[k..])[0].code) && StartsRead(g, A, gs, nullable, p, tok)
    decreases t, 0, |t.children| - k
  {
    hide Packed.WellFormed, Canonical, ItemsOf, StartsRead, Goto, Values, GotosOK, Yield, YieldAll, Parses,
        DerivesEmpty;
    WorldFacts(g, A, gs, nullable);
    var r, cs := t.rule + 2, t.children;
    if k == |cs| {
      EmptyYield(cs, k);
    }
    DotInside(g, A, p, r, k);
    YieldSplit(cs, k);
    var X := g.Rhs(r)[k];
    if Yield(cs[k]) != [] {
      tok := FirstRead(g, A, gs, nullable, p, g.rrhs[r] + k, cs[k], X);
    } else {
      EmptyChild(g, nullable, cs[k], X);
      var q := GotoExists(g, A, p, g.rrhs[r] + k);
      GotoInRange(A, p, X, q);
      tok := FirstReadFrom(g, A, gs, nullable, q, t, k + 1);
      PassedOver(g, A, gs, nullable, p, X, q, tok);
    }
  }

  lemma GotoInRange(A: Automaton, p: nat, X: nat, q: nat)
    requires Goto(A, p, X, q)
    ensures q < |A.states|
  {}

  /** The token after the first k children of a node: the first of the rest, or what follows the node. */
  ghost predicate NextToken(g: Packed, t: Tree, k: nat, after: nat, tok: nat)
    requires t.Node? && k <= |t.children|
  {
    var rest := YieldAll(t.children[k..]);
    if rest == [] then tok == after else TokenWith(g, tok, rest[0].code)
  }

  /** Tokens with one code are one token. */
  lemma OneCode(g: Packed, s: nat, t: nat, code: int)
    requires Values(g) && TokenWith(g, s, code) && TokenWith(g, t, code)
    ensures s == t
  {}

  /** A child is followed, at its transition, by the next token of the phrase, or, when the rest of the
      phrase is empty, by what follows the phrase. */
  lemma ChildFollowed(g: Packed, A: Automaton, gs: Gotos, nullable: seq<bool>, n: nat, t: Tree, k: nat, p: nat, q: nat,
                      m: nat, after: nat, tok: nat)
    requires World(g, A, gs, nullable) && t.Node? && 3 <= t.rule + 2 < |g.rlhs| && k < |t.children|
    requires ParsesAll(g.ToCfg(), t.children, g.Rhs(t.rule + 2))
    requires n < |gs.from| == |gs.to| && gs.to[n] < |A.states| && g.rlhs[t.rule + 2] == SymbolOf(A, gs, n)
    requires Walks(A, gs.from[n], g.Rhs(t.rule + 2)[..k], p) && IsNumber(A, gs, m, p, g.Rhs(t.rule + 2)[k], q)
    requires g.rrhs[t.rule + 2] + k + 1 in ItemsOf(g, A, q)
    requires Follows(g, A, gs, nullable, n, after) && NextToken(g, t, k + 1, after, tok)
    ensures Follows(g, A, gs, nullable, m, tok)
  {
    hide Canonical, GotosOK, Values, Walks, ItemsOf, Follows, Parses, YieldAll, Packed.WellFormed, Packed.Rhs;
    WorldFacts(g, A, gs, nullable);
    if YieldAll(t.children[k + 1..]) == [] {
      RestNullable(g, nullable, t, k + 1);
      LastFollowed(g, A, gs, nullable, n, t.rule + 2, k, p, q, m, after);
    } else {
      var first := FirstReadFrom(g, A, gs, nullable, q, t, k + 1);
      OneCode(g, first, tok, YieldAll(t.children[k + 1..])[0].code);
      NextFollowed(g, A, gs, nullable, m, p, g.Rhs(t.rule + 2)[k], q, tok);
    }
  }

  /** Through includes, where only symbols that may be empty come after. */
  lemma LastFollowed(g: Packed, A: Automaton, gs: Gotos, nullable: seq<bool>, n: nat, r: nat, k: nat, p: nat, q: nat,
                     m: nat, after: nat)
    requires Exact(g, A, gs, nullable) && 3 <= r < |g.rlhs| && n < |gs.from| == |gs.to| && gs.to[n] < |A.states|
    requires g.rlhs[r] == SymbolOf(A, gs, n) && k < |g.Rhs(r)| && NullableFrom(nullable, g.Rhs(r), k + 1)
    requires Walks(A, gs.from[n], g.Rhs(r)[..k], p) && IsNumber(A, gs, m, p, g.Rhs(r)[k], q)
    requires Follows(g, A, gs, nullable, n, after)
    ensures Follows(g, A, gs, nullable, m, after)
  {
    hide Canonical, GotosOK, Values, Walks, ReadBy, Packed.WellFormed, Packed.Rhs;
    WorldFacts(g, A, gs, nullable);
    assert PassesOver(g, A, gs, nullable, m, gs.from[n], r, k);
    assert IncludesVia(g, A, gs, nullable, m, n, r);
    var R := IncludesRel(g, A, gs, nullable);
    ReachEdge(R, m, n);
    var l: nat :| l < |gs.from| && Reach(R, n, l) && ReadBy(g, A, gs, nullable, l, after);
    ReachTrans(R, m, n, l);
  }

  /** Through reads. */
  lemma NextFollowed(g: Packed, A: Automaton, gs: Gotos, nullable: seq<bool>, m: nat, p: nat, X: nat, q: nat, tok: nat)
    requires Exact(g, A, gs, nullable) && |gs.from| == |gs.to| && IsNumber(A, gs, m, p, X, q)
    requires StartsRead(g, A, gs, nullable, q, tok)
    ensures Follows(g, A, gs, nullable, m, tok)
  {
    hide StartsRead, ReadBy, Values;
    ReadAfter(g, A, gs, nullable, m, tok);
    ReachRefl(IncludesRel(g, A, gs, nullable), m);
  }

  lemma RhsSymbol(g: Packed, r: nat, k: nat)
    requires g.WellFormed() && 3 <= r < |g.rlhs| && k < |g.Rhs(r)|
    ensures g.Rhs(r)[k] < g.nsyms && g.Rhs(r)[k] != g.ntokens
  {
    assert g.RuleShape(r);
  }

  lemma {:induction false} RestNullable(g: Packed, nullable: seq<bool>, t: Tree, k: nat)
    requires g.WellFormed() && |nullable| == g.nsyms &&
        (forall s: nat :: s < g.nsyms ==> (nullable[s] <==> DerivesEmpty(g.ToCfg(), s)))
    requires t.Node? && 3 <= t.rule + 2 < |g.rlhs| && k <= |t.children| &&
        ParsesAll(g.ToCfg(), t.children, g.Rhs(t.rule + 2))
    requires YieldAll(t.children[k..]) == []
    ensures NullableFrom(nullable, g.Rhs(t.rule + 2), k)
  {
    hide Packed.WellFormed, Packed.ToCfg, Packed.Rhs, Parses, YieldAll, Yield, DerivesEmpty;
    var r, cs := t.rule + 2, t.children;
    YieldAllEmpty(cs[k..]);
    forall m: nat | k <= m < |g.Rhs(r)|
      ensures g.Rhs(r)[m] < |nullable| && nullable[g.Rhs(r)[m]]
    {
      assert cs[k..][m - k] == cs[m];
      RhsSymbol(g, r, m);
      EmptyChild(g, nullable, cs[m], g.Rhs(r)[m]);
    }
  }

  /** A phrase read to its end in state q can be reduced there on whatever follows it. */
  lemma PhraseReduces(g: Packed, A: Automaton, gs: Gotos, nullable: seq<bool>, n: nat, r: nat, q: nat, tok: nat)
    returns (k: nat)
    requires Exact(g, A, gs, nullable) && 3 <= r < |g.rlhs| && n < |gs.from| == |gs.to| && gs.to[n] < |A.states|
    requires g.rlhs[r] == SymbolOf(A, gs, n) && Walks(A, gs.from[n], g.Rhs(r), q) && Follows(g, A, gs, nullable, n, tok)
    requires q < |A.states| && g.rrhs[r] + |g.Rhs(r)| in ItemsOf(g, A, q)
    ensures k < |A.reductions[q]| && A.reductions[q][k] == r && Lookahead(g, A, gs, nullable, q, r, tok)
  {
    assert Lookback(g, A, gs, q, r, n);
    assert g.RuleShape(r);
    assert RowsOK(g, A.states, A.shifts, A.reductions, q);
    var i := g.rrhs[r] + |g.Rhs(r)|;
    assert i in ItemsOf(g, A, q) && g.ritem[i] + r == 0;
    assert r in Complete(g, ItemsOf(g, A, q));
    assert r in A.reductions[q];
    k :| 0 <= k < |A.reductions[q]| && A.reductions[q][k] == r;
  }

  /** The end token follows the goal's transition. */
  lemma GoalFollowed(g: Packed, A: Automaton, gs: Gotos, nullable: seq<bool>, m: nat)
    requires Exact(g, A, gs, nullable) && |gs.from| == |gs.to| > 0 && IsNumber(A, gs, m, 0, g.ntokens + 1, gs.to[0])
    ensures Follows(g, A, gs, nullable, m, 0)
  {
    FirstGoto(g, A, gs);
    NumberIsGoto(g, A, gs, 0);
    NumberIsGoto(g, A, gs, m);
    assert BlockOK(A, gs, g.ntokens + 1);
    assert m == 0;
    ReachRefl(ReadsRel(g, A, gs, nullable), 0);
    ReachRefl(IncludesRel(g, A, gs, nullable), 0);
    assert DirectlyReads(g, A, gs, 0, 0);
    assert ReadBy(g, A, gs, nullable, 0, 0);
  }
}

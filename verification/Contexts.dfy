/** What a lookahead means, without the relations it is computed by: token t is a lookahead of rule r in
    state q exactly if the goal derives a string in which the left-hand side of r stands before t, and
    what is before it, followed by the right-hand side of r, is read from state 0 to q. */
module Contexts {
  import opened Reachability
  import opened Grammar
  import opened Closure
  import opened LR0
  import opened Paths
  import opened GotoMap
  import opened Relations
  import opened Lalr
  import opened Firsts
  import opened FollowTokens

  /** A symbol in a string that the goal derives: what is before it, and what is after it. */
  datatype Context = Context(before: seq<nat>, symbol: nat, after: seq<nat>)

  /** The symbol of c is rewritten by rule r, and the m-th symbol of that is looked at. */
  ghost predicate ExpandsBy(g: Packed, c: Context, d: Context, r: nat, m: nat)
    requires g.WellFormed()
  {
    && 3 <= r < |g.rlhs| && g.rlhs[r] == c.symbol && m < |g.Rhs(r)|
    && d == Context(c.before + g.Rhs(r)[..m], g.Rhs(r)[m], g.Rhs(r)[m + 1..] + c.after)
  }

  ghost predicate Expands(g: Packed, c: Context, d: Context)
    requires g.WellFormed()
  {
    exists r: nat, m: nat :: ExpandsBy(g, c, d, r, m)
  }

  /** The goal alone, before the end token. */
  ghost function GoalAlone(g: Packed): Context {
    Context([], g.ntokens + 1, [0])
  }

  ghost predicate Derivation(g: Packed, cs: seq<Context>)
    requires g.WellFormed()
  {
    && cs != [] && cs[0] == GoalAlone(g)
    && forall i, j :: 0 <= i < j < |cs| && j == i + 1 ==> Expands(g, cs[i], cs[j])
  }

  ghost predicate IsContext(g: Packed, c: Context)
    requires g.WellFormed()
  {
    exists cs: seq<Context> :: Derivation(g, cs) && cs[|cs| - 1] == c
  }

  /** Context c is read up to its symbol X, and then Xs, from state 0 to state q; t can come after X. */
  ghost predicate Witness(g: Packed, A: Automaton, c: Context, X: nat, Xs: seq<nat>, q: nat, t: nat)
    requires g.WellFormed()
  {
    IsContext(g, c) && c.symbol == X && Walks(A, 0, c.before + Xs, q) && BeginsWith(g, c.after, t)
  }

  /** Where rule r has been read to its end in state q, token t can come next. */
  ghost predicate CanFollow(g: Packed, A: Automaton, q: nat, r: nat, t: nat)
    requires g.WellFormed()
  {
    3 <= r < |g.rlhs| && t < g.ntokens && exists c: Context :: Witness(g, A, c, g.rlhs[r], g.Rhs(r), q, t)
  }

  lemma GoalIsContext(g: Packed)
    requires g.WellFormed()
    ensures IsContext(g, GoalAlone(g))
  {
    assert Derivation(g, [GoalAlone(g)]);
  }

  lemma ExpandsContext(g: Packed, c: Context, d: Context)
    requires g.WellFormed() && IsContext(g, c) && Expands(g, c, d)
    ensures IsContext(g, d)
  {
    hide Expands, Packed.WellFormed;
    var cs: seq<Context> :| Derivation(g, cs) && cs[|cs| - 1] == c;
    assert Derivation(g, cs + [d]);
  }

  lemma {:induction false} WalksSum(A: Automaton, p: nat, Xs: seq<nat>, q: nat, Ys: seq<nat>, r: nat)
    requires Walks(A, p, Xs, q) && Walks(A, q, Ys, r)
    ensures Walks(A, p, Xs + Ys, r)
    decreases |Ys|
  {
    if Ys == [] {
      assert Xs + Ys == Xs;
    } else {
      var n := |Ys| - 1;
      var m: nat :| WalksThrough(A, q, Ys, r, m);
      WalksSum(A, p, Xs, q, Ys[..n], m);
      assert (Xs + Ys)[..|Xs + Ys| - 1] == Xs + Ys[..n];
      assert WalksThrough(A, p, Xs + Ys, r, m);
    }
  }

  lemma {:induction false} WalksSplit(A: Automaton, p: nat, Xs: seq<nat>, Ys: seq<nat>, r: nat) returns (q: nat)
    requires Walks(A, p, Xs + Ys, r)
    ensures Walks(A, p, Xs, q) && Walks(A, q, Ys, r)
    decreases |Ys|
  {
    if Ys == [] {
      assert Xs + Ys == Xs;
      q := r;
    } else {
      var n := |Ys| - 1;
      var m: nat :| WalksThrough(A, p, Xs + Ys, r, m);
      assert (Xs + Ys)[..|Xs + Ys| - 1] == Xs + Ys[..n];
      q := WalksSplit(A, p, Xs, Ys[..n], m);
      assert WalksThrough(A, q, Ys, r, m);
    }
  }

  lemma WalksOne(A: Automaton, p: nat, X: nat, q: nat)
    requires Goto(A, p, X, q)
    ensures Walks(A, p, [X], q)
  {
    assert [X][..0] == [] && Walks(A, p, [], p);
    assert WalksThrough(A, p, [X], q, p);
  }

  // Tokens that can come next are lookaheads.

  lemma NullIsVar(g: Packed, nullable: seq<bool>, X: nat)
    requires g.WellFormed() && |nullable| == g.nsyms && X < g.nsyms && X != g.ntokens
    requires forall s: nat :: s < g.nsyms ==> (nullable[s] <==> DerivesEmpty(g.ToCfg(), s))
    requires Null(g, X)
    ensures nullable[X] && g.ntokens < X
  {
    var t :| Parses(g.ToCfg(), t, X) && Yield(t) == [];
    NodeRule(g, t, X);
  }

  /** What a symbol can start with is read where the dot is before it. */
  lemma {:induction false} SymbolRead(g: Packed, A: Automaton, gs: Gotos, nullable: seq<bool>, p: nat, i: nat, X: nat,
                                      w: seq<nat>, t: nat)
    requires Exact(g, A, gs, nullable) && DotBefore(g, A, p, i, X) && X > 0 && Joins(LeftRel(g), w, X, t) &&
        t < g.ntokens
    ensures StartsRead(g, A, gs, nullable, p, t)
    decreases |w|, 0, 0
  {
    if |w| == 1 {
      var q := GotoExists(g, A, p, i);
    } else {
      assert LeftRel(g)(w[0], w[1]);
      var r: nat, m: nat :| Begins(g, r, m, X, w[1]);
      RuleStarts(g, A, p, i, r);
      assert Joins(LeftRel(g), w[1..], w[1], t);
      RestRead(g, A, gs, nullable, p, r, 0, m, w[1..], t);
    }
  }

  /** The same behind symbols of a rule that may be empty. */
  lemma {:induction false} RestRead(g: Packed, A: Automaton, gs: Gotos, nullable: seq<bool>, p: nat, r: nat, k: nat,
                                    m: nat, w: seq<nat>, t: nat)
    requires Exact(g, A, gs, nullable) && p < |A.states| && 3 <= r < |g.rlhs| && k <= m < |g.Rhs(r)|
    requires g.rrhs[r] + k in ItemsOf(g, A, p) && NullAll(g, g.Rhs(r)[k..m])
    requires Joins(LeftRel(g), w, g.Rhs(r)[m], t) && t < g.ntokens
    ensures StartsRead(g, A, gs, nullable, p, t)
    decreases |w|, 1, m - k
  {
    hide Packed.WellFormed, Canonical, ItemsOf, StartsRead, Goto, GotosOK, Packed.Rhs, Null, Joins, LeftRel;
    WorldFacts(g, A, gs, nullable);
    DotInside(g, A, p, r, k);
    var X := g.Rhs(r)[k];
    if k == m {
      SymbolRead(g, A, gs, nullable, p, g.rrhs[r] + k, X, w, t);
    } else {
      assert g.Rhs(r)[k..m][0] == X && g.Rhs(r)[k..m][1..] == g.Rhs(r)[k + 1..m];
      NullIsVar(g, nullable, X);
      var q := GotoExists(g, A, p, g.rrhs[r] + k);
      GotoInRange(A, p, X, q);
      RestRead(g, A, gs, nullable, q, r, k + 1, m, w, t);
      PassedOver(g, A, gs, nullable, p, X, q, t);
    }
  }

  /** What the rest of a rule begins with can be read where the dot is before it. */
  lemma RestBegins(g: Packed, A: Automaton, gs: Gotos, nullable: seq<bool>, p: nat, r: nat, k: nat, t: nat)
    requires Exact(g, A, gs, nullable) && p < |A.states| && 3 <= r < |g.rlhs| && k <= |g.Rhs(r)|
    requires g.rrhs[r] + k in ItemsOf(g, A, p) && BeginsWith(g, g.Rhs(r)[k..], t) && t < g.ntokens
    ensures StartsRead(g, A, gs, nullable, p, t)
  {
    hide Packed.WellFormed, Canonical, ItemsOf, StartsRead, GotosOK, Packed.Rhs, Null, LeftRel;
    WorldFacts(g, A, gs, nullable);
    var j: nat :| StartsAt(g, g.Rhs(r)[k..], j, t);
    assert g.Rhs(r)[k..][..j] == g.Rhs(r)[k..k + j] && g.Rhs(r)[k..][j] == g.Rhs(r)[k + j];
    var w :| Joins(LeftRel(g), w, g.Rhs(r)[k + j], t);
    RestRead(g, A, gs, nullable, p, r, k, k + j, w, t);
  }

  lemma RuleVar(g: Packed, r: nat)
    requires g.WellFormed() && 3 <= r < |g.rlhs|
    ensures 0 < g.ntokens < g.rlhs[r] < g.nsyms && r < |g.rrhs|
  {}

  /** From where a rule can start its first m symbols can be read. */
  lemma {:induction false} RuleRead(g: Packed, A: Automaton, p: nat, r: nat, m: nat) returns (q: nat)
    requires g.WellFormed() && Canonical(g, A) && p < |A.states| && 3 <= r < |g.rlhs| && m <= |g.Rhs(r)|
    requires g.rrhs[r] in ItemsOf(g, A, p)
    ensures Walks(A, p, g.Rhs(r)[..m], q) && q < |A.states| && g.rrhs[r] + m in ItemsOf(g, A, q)
  {
    hide Packed.WellFormed, Canonical, ItemsOf, Goto, Packed.Rhs;
    RuleVar(g, r);
    if m == 0 {
      q := p;
    } else {
      var o := RuleRead(g, A, p, r, m - 1);
      DotInside(g, A, o, r, m - 1);
      q := GotoExists(g, A, o, g.rrhs[r] + m - 1);
      GotoInRange(A, o, g.Rhs(r)[m - 1], q);
      assert g.Rhs(r)[..m][..m - 1] == g.Rhs(r)[..m - 1];
      assert WalksThrough(A, p, g.Rhs(r)[..m], q, o);
    }
  }

  /** What is before the symbol of a context can be read, and then the dot is before the symbol. */
  lemma {:induction false} ContextRead(g: Packed, A: Automaton, cs: seq<Context>) returns (p: nat, i: nat)
    requires g.WellFormed() && Canonical(g, A) && Derivation(g, cs)
    ensures Walks(A, 0, cs[|cs| - 1].before, p) && DotBefore(g, A, p, i, cs[|cs| - 1].symbol)
    ensures cs[|cs| - 1].symbol < g.nsyms && cs[|cs| - 1].symbol != g.ntokens
    decreases |cs|, 0
  {
    var n := |cs| - 1;
    if n == 0 {
      p, i := 0, 1;
      ClosureIsClosed(g, A.states[0].items);
    } else {
      p, i := ExpandedRead(g, A, cs[..n], cs[n]);
    }
  }

  lemma {:induction false} ExpandedRead(g: Packed, A: Automaton, cs: seq<Context>, d: Context) returns (p: nat, i: nat)
    requires g.WellFormed() && Canonical(g, A) && Derivation(g, cs) && Expands(g, cs[|cs| - 1], d)
    ensures Walks(A, 0, d.before, p) && DotBefore(g, A, p, i, d.symbol)
    ensures d.symbol < g.nsyms && d.symbol != g.ntokens
    decreases |cs|, 1
  {
    hide Packed.WellFormed, Canonical, DotBefore, Packed.Rhs, ItemsOf;
    var c := cs[|cs| - 1];
    var r: nat, m: nat :| ExpandsBy(g, c, d, r, m);
    var p0, i0 := ContextRead(g, A, cs);
    DotInState(g, A, p0, i0, c.symbol);
    RuleStarts(g, A, p0, i0, r);
    p := RuleRead(g, A, p0, r, m);
    WalksSum(A, 0, c.before, p0, g.Rhs(r)[..m], p);
    DotInside(g, A, p, r, m);
    RuleVar(g, r);
    i := g.rrhs[r] + m;
  }

  lemma DotInState(g: Packed, A: Automaton, p: nat, i: nat, X: nat)
    requires DotBefore(g, A, p, i, X)
    ensures p < |A.states| && i in ItemsOf(g, A, p)
  {}

  /** The end token alone comes after the goal. */
  lemma EndAlone(g: Packed, t: nat)
    requires g.WellFormed() && BeginsWith(g, [0], t)
    ensures t == 0
  {
    var k: nat :| StartsAt(g, [0], k, t);
    var w :| Joins(LeftRel(g), w, 0, t);
    if |w| > 1 {
      assert LeftRel(g)(w[0], w[1]);
      var r: nat, m: nat :| Begins(g, r, m, 0, w[1]);
      assert false;
    }
  }

  /** What comes after the symbol of a context follows the transition over the symbol. */
  lemma {:induction false} ContextFollowed(g: Packed, A: Automaton, gs: Gotos, nullable: seq<bool>, cs: seq<Context>,
                                           p: nat, n: nat, q: nat, t: nat)
    requires Exact(g, A, gs, nullable) && |gs.from| == |gs.to| && t < g.ntokens && Derivation(g, cs)
    requires Walks(A, 0, cs[|cs| - 1].before, p) && IsNumber(A, gs, n, p, cs[|cs| - 1].symbol, q)
    requires BeginsWith(g, cs[|cs| - 1].after, t)
    ensures Follows(g, A, gs, nullable, n, t)
    decreases |cs|, 0
  {
    var k := |cs| - 1;
    if k == 0 {
      EndAlone(g, t);
      FirstGoto(g, A, gs);
      NumberIsGoto(g, A, gs, 0);
      GotoUnique(g, A, 0, g.ntokens + 1, q, gs.to[0]);
      GoalFollowed(g, A, gs, nullable, n);
    } else {
      assert Expands(g, cs[k - 1], cs[k]);
      ExpandedFollowed(g, A, gs, nullable, cs[..k], cs[k], p, n, q, t);
    }
  }

  lemma {:induction false} ExpandedFollowed(g: Packed, A: Automaton, gs: Gotos, nullable: seq<bool>, cs: seq<Context>,
                                            d: Context, p: nat, n: nat, q: nat, t: nat)
    requires Exact(g, A, gs, nullable) && |gs.from| == |gs.to| && t < g.ntokens && Derivation(g, cs)
    requires Expands(g, cs[|cs| - 1], d) && Walks(A, 0, d.before, p) && IsNumber(A, gs, n, p, d.symbol, q)
    requires BeginsWith(g, d.after, t)
    ensures Follows(g, A, gs, nullable, n, t)
    decreases |cs|, 2
  {
    hide Packed.WellFormed, Canonical, GotosOK, DotBefore, Packed.Rhs, ItemsOf, Follows, Walks, IsNumber, BeginsWith,
        NullAll;
    WorldFacts(g, A, gs, nullable);
    var c := cs[|cs| - 1];
    var r: nat, m: nat :| ExpandsBy(g, c, d, r, m);
    var p0, i0 := ContextRead(g, A, cs);
    DotInState(g, A, p0, i0, c.symbol);
    RuleStarts(g, A, p0, i0, r);
    var p1 := RuleRead(g, A, p0, r, m);
    WalksSum(A, 0, c.before, p0, g.Rhs(r)[..m], p1);
    WalksUnique(g, A, 0, d.before, p, p1);
    StartsOfSum(g, g.Rhs(r)[m + 1..], c.after, t);
    if BeginsWith(g, g.Rhs(r)[m + 1..], t) {
      DotMoves(g, A, gs, n, p, r, m, q);
      RestBegins(g, A, gs, nullable, q, r, m + 1, t);
      NextFollowed(g, A, gs, nullable, n, p, d.symbol, q, t);
    } else {
      CircumFollowed(g, A, gs, nullable, cs, r, m, p0, i0, p, n, q, t);
    }
  }

  lemma DotMoves(g: Packed, A: Automaton, gs: Gotos, n: nat, p: nat, r: nat, m: nat, q: nat)
    requires g.WellFormed() && Canonical(g, A) && p < |A.states| && 3 <= r < |g.rlhs| && m < |g.Rhs(r)|
    requires g.rrhs[r] + m in ItemsOf(g, A, p) && IsNumber(A, gs, n, p, g.Rhs(r)[m], q)
    ensures q < |A.states| && g.rrhs[r] + m + 1 in ItemsOf(g, A, q)
  {
    hide Packed.WellFormed, Canonical, ItemsOf, Packed.Rhs;
    RuleVar(g, r);
    DotInside(g, A, p, r, m);
    var q' := GotoExists(g, A, p, g.rrhs[r] + m);
    GotoUnique(g, A, p, g.Rhs(r)[m], q, q');
  }

  /** What follows a phrase follows its last symbols, as far as only symbols that may be empty come
      after. */
  lemma {:induction false} CircumFollowed(g: Packed, A: Automaton, gs: Gotos, nullable: seq<bool>, cs: seq<Context>,
                                          r: nat, m: nat, p0: nat, i0: nat, p: nat, n: nat, q: nat, t: nat)
    requires Exact(g, A, gs, nullable) && |gs.from| == |gs.to| && t < g.ntokens && Derivation(g, cs)
    requires 3 <= r < |g.rlhs| && g.rlhs[r] == cs[|cs| - 1].symbol && m < |g.Rhs(r)|
    requires Walks(A, 0, cs[|cs| - 1].before, p0) && DotBefore(g, A, p0, i0, g.rlhs[r])
    requires Walks(A, p0, g.Rhs(r)[..m], p) && IsNumber(A, gs, n, p, g.Rhs(r)[m], q)
    requires NullAll(g, g.Rhs(r)[m + 1..]) && BeginsWith(g, cs[|cs| - 1].after, t)
    ensures Follows(g, A, gs, nullable, n, t)
    decreases |cs|, 1
  {
    hide Packed.WellFormed, Canonical, GotosOK, Packed.Rhs, ItemsOf, Follows, Walks, BeginsWith, Null;
    WorldFacts(g, A, gs, nullable);
    RuleVar(g, r);
    var q0 := GotoExists(g, A, p0, i0);
    var n0 := TransitionNumber(g, A, gs, p0, g.rlhs[r], q0);
    ContextFollowed(g, A, gs, nullable, cs, p0, n0, q0, t);
    forall k | m + 1 <= k < |g.Rhs(r)|
      ensures g.Rhs(r)[k] < |nullable| && nullable[g.Rhs(r)[k]]
    {
      assert g.Rhs(r)[m + 1..][k - (m + 1)] == g.Rhs(r)[k];
      RhsSymbol(g, r, k);
      NullIsVar(g, nullable, g.Rhs(r)[k]);
    }
    LastFollowed(g, A, gs, nullable, n0, r, m, p, q, n, t);
  }

  /** A token that can come next is a lookahead. */
  lemma FollowingIsLookahead(g: Packed, A: Automaton, gs: Gotos, nullable: seq<bool>, q: nat, r: nat, t: nat)
    requires Exact(g, A, gs, nullable) && |gs.from| == |gs.to| && CanFollow(g, A, q, r, t)
    ensures Lookahead(g, A, gs, nullable, q, r, t)
  {
    hide Packed.WellFormed, Canonical, GotosOK, Packed.Rhs, ItemsOf, Follows, Walks, BeginsWith, Null;
    WorldFacts(g, A, gs, nullable);
    var c: Context :| Witness(g, A, c, g.rlhs[r], g.Rhs(r), q, t);
    var cs: seq<Context> :| Derivation(g, cs) && cs[|cs| - 1] == c;
    var p, i := ContextRead(g, A, cs);
    var p' := WalksSplit(A, 0, c.before, g.Rhs(r), q);
    WalksUnique(g, A, 0, c.before, p, p');
    RuleVar(g, r);
    var q0 := GotoExists(g, A, p, i);
    var n := TransitionNumber(g, A, gs, p, g.rlhs[r], q0);
    ContextFollowed(g, A, gs, nullable, cs, p, n, q0, t);
    assert Lookback(g, A, gs, q, r, n);
  }

  // Lookaheads can come next.

  /** Item i, of rule r, is before a string that begins with t. */
  ghost predicate ItemBegins(g: Packed, i: nat, r: nat, t: nat)
    requires g.WellFormed()
  {
    InRule(g, i, r) && i - g.rrhs[r] <= |g.Rhs(r)| && BeginsWith(g, g.Rhs(r)[i - g.rrhs[r]..], t)
  }

  /** The dot moves back over X, which begins with t, or may be empty before what does. */
  lemma BeginsBack(g: Packed, i: nat, r: nat, t: nat)
    requires g.WellFormed() && i > 0 && InRule(g, i, r) && InRule(g, i - 1, r) && g.ritem[i - 1] >= 0
    requires Reach(LeftRel(g), g.ritem[i - 1], t) || (Null(g, g.ritem[i - 1]) && ItemBegins(g, i, r, t))
    ensures ItemBegins(g, i - 1, r, t)
  {
    hide LeftRel, Null, BeginsWith, Packed.WellFormed;
    DotInRhs(g, i, r);
    ItemAt(g, i - 1, r);
    var m := i - 1 - g.rrhs[r];
    var X := g.Rhs(r)[m];
    assert g.Rhs(r)[m..] == [X] + g.Rhs(r)[m + 1..];
    if Reach(LeftRel(g), X, t) {
      StartsOfOne(g, X, g.Rhs(r)[m + 1..], t);
    } else {
      StartsOfSum(g, [X], g.Rhs(r)[m + 1..], t);
    }
  }

  /** An item is before one symbol at least if it begins with anything. */
  lemma BeginsSomewhere(g: Packed, i: nat, r: nat, t: nat)
    requires g.WellFormed() && ItemBegins(g, i, r, t)
    ensures i < |g.ritem| && i + 1 < g.rrhs[r + 1] && 0 <= g.ritem[i]
  {
    ItemAt(g, i, r);
    assert g.RuleShape(r);
    var k: nat :| StartsAt(g, g.Rhs(r)[i - g.rrhs[r]..], k, t);
  }

  /** Among the items of a state that begin with t there is one of the kernel. */
  lemma {:induction false} KernelBegins(g: Packed, kernel: seq<nat>, w: seq<nat>, k: nat, i: nat, r: nat, t: nat)
    returns (s: nat)
    requires g.WellFormed() && k in kernel && Joins(ItemRel(g), w, k, i) && ItemBegins(g, i, r, t)
    ensures ItemBegins(g, k, s, t)
    decreases |w|
  {
    hide LeftRel, Null, BeginsWith, Packed.WellFormed;
    if |w| == 1 {
      s := r;
    } else {
      var n := |w| - 2;
      var x := w[n];
      assert ItemRel(g)(x, i);
      var u := Predicts(g, x, i, r, t);
      assert Joins(ItemRel(g), w[..n + 1], k, x);
      s := KernelBegins(g, kernel, w[..n + 1], k, x, u, t);
    }
  }

  /** What predicts an item begins with what the item begins with. */
  lemma Predicts(g: Packed, x: nat, i: nat, r: nat, t: nat) returns (u: nat)
    requires g.WellFormed() && ItemRel(g)(x, i) && ItemBegins(g, i, r, t)
    ensures ItemBegins(g, x, u, t)
  {
    var s := PredictedRule(g, x, i, r);
    u := ItemHasRule(g, x);
    ItemAt(g, x, u);
    assert g.RuleShape(u);
    assert g.Rhs(r)[0..] == g.Rhs(r);
    StartsOfRule(g, r, t);
    BeginsBack(g, x + 1, u, t);
  }

  /** The predicted item is the first of a rule of the symbol after the dot. */
  lemma PredictedRule(g: Packed, x: nat, i: nat, r: nat) returns (X: nat)
    requires g.WellFormed() && ItemRel(g)(x, i) && InRule(g, i, r)
    ensures 1 <= x < |g.ritem| && g.ritem[x] == X == g.rlhs[r] > g.ntokens && i == g.rrhs[r] && 3 <= r
  {
    var s: nat :| 2 <= s < |g.rlhs| && g.rlhs[s] == g.ritem[x] && g.rrhs[s] == i;
    assert g.RuleShape(s);
    assert InRule(g, i, s);
    RuleIsUnique(g, i, r, s);
    X := g.rlhs[r];
    var u := ItemHasRule(g, x);
    ItemAt(g, x, u);
  }

  lemma StateBegins(g: Packed, A: Automaton, q: nat, i: nat, r: nat, t: nat) returns (y: nat, s: nat)
    requires g.WellFormed() && q < |A.states| && i in ItemsOf(g, A, q) && ItemBegins(g, i, r, t)
    ensures y in A.states[q].items && ItemBegins(g, y, s, t)
  {
    hide ItemBegins, Packed.WellFormed;
    y :| y in A.states[q].items && Reach(ItemRel(g), y, i);
    var w :| Joins(ItemRel(g), w, y, i);
    s := KernelBegins(g, A.states[q].items, w, y, i, r, t);
  }

  /** A kernel item comes from one with the dot before the symbol the state is entered by. */
  lemma MovedBack(g: Packed, A: Automaton, p: nat, X: nat, q: nat, y: nat, s: nat)
    requires g.WellFormed() && Canonical(g, A) && Goto(A, p, X, q) && y in A.states[q].items && InRule(g, y, s)
    ensures p < |A.states| && y > 0 && y - 1 in ItemsOf(g, A, p) && g.ritem[y - 1] == X && InRule(g, y - 1, s)
  {
    GotoItems(g, A, p, X, q);
    assert KernelOK(g, A.states[q]);
    assert y in Advance(g, ItemsOf(g, A, p), X);
    var u := ItemHasRule(g, y - 1);
    ItemAt(g, y - 1, u);
    assert InRule(g, y, u);
    RuleIsUnique(g, y, s, u);
  }

  /** Where a token is shifted an item begins with it. */
  lemma ShiftedBegins(g: Packed, A: Automaton, p: nat, t: nat, q: nat) returns (i: nat, r: nat)
    requires g.WellFormed() && Canonical(g, A) && Goto(A, p, t, q)
    ensures p < |A.states| && i in ItemsOf(g, A, p) && ItemBegins(g, i, r, t)
  {
    GotoItems(g, A, p, t, q);
    assert KernelOK(g, A.states[q]);
    var y := A.states[q].items[0];
    assert y in A.states[q].items;
    r := ItemHasRule(g, y - 1);
    ItemAt(g, y - 1, r);
    assert g.RuleShape(r);
    MovedBack(g, A, p, t, q, y, r);
    i := y - 1;
    ReachRefl(LeftRel(g), t);
    BeginsBack(g, y, r, t);
  }

  /** What is read after a transition a kernel item of its target begins with. */
  lemma {:induction false} ReadBegins(g: Packed, A: Automaton, gs: Gotos, nullable: seq<bool>, w: seq<nat>, m: nat,
                                      k: nat, t: nat) returns (y: nat, s: nat)
    requires Exact(g, A, gs, nullable) && m < |gs.from| == |gs.to| && Joins(ReadsRel(g, A, gs, nullable), w, m, k)
    requires Shifted(g, A, gs, k, t)
    ensures gs.to[m] < |A.states| && y in A.states[gs.to[m]].items && ItemBegins(g, y, s, t)
    decreases |w|
  {
    hide ItemBegins, Packed.WellFormed, Canonical, GotosOK, ItemsOf;
    WorldFacts(g, A, gs, nullable);
    NumberIsGoto(g, A, gs, m);
    if |w| == 1 {
      var q: nat :| Goto(A, gs.to[k], t, q);
      var i, r := ShiftedBegins(g, A, gs.to[k], t, q);
      y, s := StateBegins(g, A, gs.to[m], i, r, t);
    } else {
      assert ReadsRel(g, A, gs, nullable)(w[0], w[1]);
      assert Joins(ReadsRel(g, A, gs, nullable), w[1..], w[1], k);
      var y1, s1 := ReadBegins(g, A, gs, nullable, w[1..], w[1], k, t);
      NumberIsGoto(g, A, gs, w[1]);
      EmptyBack(g, A, gs.from[w[1]], SymbolOf(A, gs, w[1]), gs.to[w[1]], y1, s1, t);
      y, s := StateBegins(g, A, gs.to[m], y1 - 1, s1, t);
    }
  }

  lemma EmptyBack(g: Packed, A: Automaton, p: nat, X: nat, q: nat, y: nat, s: nat, t: nat)
    requires g.WellFormed() && Canonical(g, A) && Goto(A, p, X, q) && y in A.states[q].items && ItemBegins(g, y, s, t)
    requires Null(g, X)
    ensures p < |A.states| && y > 0 && y - 1 in ItemsOf(g, A, p) && ItemBegins(g, y - 1, s, t)
  {
    MovedBack(g, A, p, X, q, y, s);
    BeginsBack(g, y, s, t);
  }

  /** The start item is in state 0 alone. */
  lemma StartInZero(g: Packed, A: Automaton, q: nat, w: seq<nat>, k: nat)
    requires g.WellFormed() && Canonical(g, A) && q < |A.states| && k in A.states[q].items && Joins(ItemRel(g), w, k, 1)
    ensures q == 0
  {
    if q > 0 {
      assert KernelOK(g, A.states[q]);
      assert ItemRel(g)(w[|w| - 2], w[|w| - 1]);
      var X := PredictedRule(g, w[|w| - 2], 1, 2);
      assert false;
    }
  }

  /** Context c has the left-hand side of rule s; what is before it and before the dot of item i leads to q. */
  ghost predicate Places(g: Packed, A: Automaton, c: Context, i: nat, s: nat, q: nat)
    requires g.WellFormed()
  {
    && 3 <= s && InRule(g, i, s) && i - g.rrhs[s] <= |g.Rhs(s)| && IsContext(g, c) && c.symbol == g.rlhs[s]
    && Walks(A, 0, c.before + g.Rhs(s)[..i - g.rrhs[s]], q)
  }

  /** Every item of a state has its place in a context whose prefix leads to the state. */
  lemma {:induction false} ItemContext(g: Packed, A: Automaton, q: nat, w: seq<nat>, k: nat, i: nat, s: nat)
    returns (c: Context)
    requires g.WellFormed() && Canonical(g, A) && q < |A.states| && k in A.states[q].items
    requires Joins(ItemRel(g), w, k, i) && InRule(g, i, s) && 3 <= s
    ensures Places(g, A, c, i, s, q)
    decreases q, |w|, 1
  {
    hide Packed.WellFormed, Canonical, Packed.Rhs, Walks;
    if |w| == 1 {
      c := KernelContext(g, A, q, i, s);
    } else {
      var n := |w| - 2;
      var x := w[n];
      assert ItemRel(g)(x, i);
      assert Joins(ItemRel(g), w[..n + 1], k, x);
      var X := PredictedRule(g, x, i, s);
      var u := ItemHasRule(g, x);
      if u == 2 {
        GoalItem(g, x, X);
        StartInZero(g, A, q, w[..n + 1], k);
        c := GoalAlone(g);
        GoalPlaces(g, A, c, i, s);
      } else {
        var b := ItemContext(g, A, q, w[..n + 1], k, x, u);
        c := PredictedPlaces(g, A, b, x, u, i, s, q);
      }
    }
  }

  lemma GoalItem(g: Packed, x: nat, X: nat)
    requires g.WellFormed() && InRule(g, x, 2) && g.ritem[x] == X > g.ntokens
    ensures x == 1 && X == g.ntokens + 1
  {
    assert g.RuleShape(2);
  }

  lemma GoalPlaces(g: Packed, A: Automaton, c: Context, i: nat, s: nat)
    requires g.WellFormed() && InRule(g, i, s) && 3 <= s && i == g.rrhs[s] && g.rlhs[s] == g.ntokens + 1
    requires c == GoalAlone(g)
    ensures Places(g, A, c, i, s, 0)
  {
    GoalIsContext(g);
    assert c.before + g.Rhs(s)[..0] == [];
  }

  lemma PredictedPlaces(g: Packed, A: Automaton, b: Context, x: nat, u: nat, i: nat, s: nat, q: nat)
    returns (c: Context)
    requires g.WellFormed() && Places(g, A, b, x, u, q) && InRule(g, i, s) && 3 <= s && i == g.rrhs[s]
    requires g.ritem[x] == g.rlhs[s]
    ensures Places(g, A, c, i, s, q)
  {
    hide IsContext, Walks;
    c := OneMore(g, b, x, u);
    ItemAt(g, x, u);
    assert c.before + g.Rhs(s)[..0] == b.before + g.Rhs(u)[..x - g.rrhs[u]];
  }

  /** The context of the symbol after the dot. */
  lemma OneMore(g: Packed, b: Context, x: nat, u: nat) returns (c: Context)
    requires g.WellFormed() && 3 <= u && InRule(g, x, u) && g.ritem[x] >= 0 && b.symbol == g.rlhs[u] && IsContext(g, b)
    ensures x - g.rrhs[u] < |g.Rhs(u)| && IsContext(g, c) && c.symbol == g.ritem[x]
    ensures c.before == b.before + g.Rhs(u)[..x - g.rrhs[u]] && c.after == g.Rhs(u)[x + 1 - g.rrhs[u]..] + b.after
  {
    ItemAt(g, x, u);
    assert g.RuleShape(u);
    var m := x - g.rrhs[u];
    c := Context(b.before + g.Rhs(u)[..m], g.Rhs(u)[m], g.Rhs(u)[m + 1..] + b.after);
    assert ExpandsBy(g, b, c, u, m);
    ExpandsContext(g, b, c);
  }

  lemma {:induction false} KernelContext(g: Packed, A: Automaton, q: nat, i: nat, s: nat) returns (c: Context)
    requires g.WellFormed() && Canonical(g, A) && q < |A.states| && i in A.states[q].items
    requires InRule(g, i, s) && 3 <= s
    ensures Places(g, A, c, i, s, q)
    decreases q, 0
  {
    hide Packed.Rhs, Walks, IsContext;
    if q == 0 {
      RuleIsUnique(g, 1, 2, s);
      assert false;
    } else {
      assert EnteredEarlier(A.shifts, q);
      var p: nat :| p < q && p < |A.shifts| && q in A.shifts[p];
      var X := A.states[q].accessing;
      MovedBack(g, A, p, X, q, i, s);
      var k :| k in A.states[p].items && Reach(ItemRel(g), k, i - 1);
      var w :| Joins(ItemRel(g), w, k, i - 1);
      c := ItemContext(g, A, p, w, k, i - 1, s);
      WalkedPlaces(g, A, c, i, s, p, X, q);
    }
  }

  lemma WalkedPlaces(g: Packed, A: Automaton, c: Context, i: nat, s: nat, p: nat, X: nat, q: nat)
    requires g.WellFormed() && i > 0 && Places(g, A, c, i - 1, s, p) && Goto(A, p, X, q) && g.ritem[i - 1] == X
    requires InRule(g, i, s)
    ensures Places(g, A, c, i, s, q)
  {
    hide IsContext;
    ItemAt(g, i - 1, s);
    DotInRhs(g, i, s);
    var m := i - g.rrhs[s];
    assert c.before + g.Rhs(s)[..m] == c.before + g.Rhs(s)[..m - 1] + [X];
    WalksOne(A, p, X, q);
    WalksSum(A, 0, c.before + g.Rhs(s)[..m - 1], p, [X], q);
  }

  /** Context c is about the symbol of transition n, its prefix leads to where n starts, and t can come next. */
  ghost predicate Surrounds(g: Packed, A: Automaton, gs: Gotos, c: Context, n: nat, t: nat)
    requires g.WellFormed()
  {
    && n < |gs.from| && n < |gs.to| && gs.to[n] < |A.states| && IsContext(g, c) && c.symbol == SymbolOf(A, gs, n)
    && Walks(A, 0, c.before, gs.from[n]) && BeginsWith(g, c.after, t)
  }

  /** The transition over the goal is followed by the end token. */
  lemma GoalSurrounds(g: Packed, A: Automaton, gs: Gotos)
    requires g.WellFormed() && Canonical(g, A) && GotosOK(g, A, gs) && |gs.from| == |gs.to|
    ensures Surrounds(g, A, gs, GoalAlone(g), 0, 0)
  {
    FirstGoto(g, A, gs);
    GoalIsContext(g);
    ReachRefl(LeftRel(g), 0);
    assert StartsAt(g, [0], 0, 0);
  }

  /** Nothing is read before the transition over the goal, which leaves state 0. */
  lemma ReadsNotGoal(g: Packed, A: Automaton, gs: Gotos, nullable: seq<bool>, w: seq<nat>, m: nat)
    requires Exact(g, A, gs, nullable) && |gs.from| == |gs.to| && Joins(ReadsRel(g, A, gs, nullable), w, m, 0)
    ensures m == 0
  {
    if |w| > 1 {
      var n := w[|w| - 2];
      assert ReadsRel(g, A, gs, nullable)(n, w[|w| - 1]);
      FirstGoto(g, A, gs);
      NumberIsGoto(g, A, gs, n);
      GotoItems(g, A, gs.from[n], SymbolOf(A, gs, n), gs.to[n]);
      assert false;
    }
  }

  /** What is read after a transition can come next in a context of it. */
  lemma ReadContext(g: Packed, A: Automaton, gs: Gotos, nullable: seq<bool>, m: nat, t: nat) returns (c: Context)
    requires Exact(g, A, gs, nullable) && m < |gs.from| == |gs.to| && ReadBy(g, A, gs, nullable, m, t)
    ensures Surrounds(g, A, gs, c, m, t)
  {
    hide Packed.WellFormed, Canonical, GotosOK, Shifted, Surrounds;
    WorldFacts(g, A, gs, nullable);
    var k: nat :| k < |gs.from| && Reach(ReadsRel(g, A, gs, nullable), m, k) && DirectlyReads(g, A, gs, k, t);
    var w :| Joins(ReadsRel(g, A, gs, nullable), w, m, k);
    if Shifted(g, A, gs, k, t) {
      c := ShiftedContext(g, A, gs, nullable, w, m, k, t);
    } else {
      ReadsNotGoal(g, A, gs, nullable, w, m);
      c := GoalAlone(g);
      GoalSurrounds(g, A, gs);
    }
  }

  lemma ShiftedContext(g: Packed, A: Automaton, gs: Gotos, nullable: seq<bool>, w: seq<nat>, m: nat, k: nat, t: nat)
    returns (c: Context)
    requires Exact(g, A, gs, nullable) && m < |gs.from| == |gs.to| && Joins(ReadsRel(g, A, gs, nullable), w, m, k)
    requires Shifted(g, A, gs, k, t)
    ensures Surrounds(g, A, gs, c, m, t)
  {
    hide Packed.WellFormed, Canonical, GotosOK, Shifted, BeginsWith, IsContext, Walks, LeftRel, Null;
    WorldFacts(g, A, gs, nullable);
    var y, s := ReadBegins(g, A, gs, nullable, w, m, k, t);
    NumberIsGoto(g, A, gs, m);
    MovedBack(g, A, gs.from[m], SymbolOf(A, gs, m), gs.to[m], y, s);
    ShiftedIsNotEnd(g, A, gs, k, t);
    RuleOfBegun(g, y, s, t);
    var j :| j in A.states[gs.from[m]].items && Reach(ItemRel(g), j, y - 1);
    var v :| Joins(ItemRel(g), v, j, y - 1);
    var b := ItemContext(g, A, gs.from[m], v, j, y - 1, s);
    c := OneMore(g, b, y - 1, s);
    StartsOfSum(g, g.Rhs(s)[y - g.rrhs[s]..], b.after, t);
  }

  lemma ShiftedIsNotEnd(g: Packed, A: Automaton, gs: Gotos, k: nat, t: nat)
    requires Canonical(g, A) && Shifted(g, A, gs, k, t)
    ensures t > 0
  {
    var q: nat :| Goto(A, gs.to[k], t, q);
    GotoItems(g, A, gs.to[k], t, q);
  }

  /** Past its first symbol the start rule begins with the end token only. */
  lemma RuleOfBegun(g: Packed, y: nat, s: nat, t: nat)
    requires g.WellFormed() && y > 0 && InRule(g, y - 1, s) && ItemBegins(g, y, s, t) && t > 0
    ensures s >= 3
  {
    if s == 2 {
      BeginsSomewhere(g, y, s, t);
      assert g.RuleShape(2);
      assert g.Rhs(2)[y - g.rrhs[2]..] == [0];
      EndAlone(g, t);
    }
  }

  /** What follows a transition can come next in a context of it. */
  lemma {:induction false} FollowContext(g: Packed, A: Automaton, gs: Gotos, nullable: seq<bool>, w: seq<nat>, n: nat,
                                         m: nat, t: nat) returns (c: Context)
    requires Exact(g, A, gs, nullable) && |gs.from| == |gs.to| && m < |gs.from|
    requires Joins(IncludesRel(g, A, gs, nullable), w, n, m) && ReadBy(g, A, gs, nullable, m, t)
    ensures Surrounds(g, A, gs, c, n, t)
    decreases |w|
  {
    hide Packed.WellFormed, Canonical, GotosOK, Surrounds, ReadBy, Includes;
    WorldFacts(g, A, gs, nullable);
    if |w| == 1 {
      c := ReadContext(g, A, gs, nullable, m, t);
    } else {
      var R := IncludesRel(g, A, gs, nullable);
      assert R(w[0], w[1]) && Joins(R, w[1..], w[1], m);
      var b := FollowContext(g, A, gs, nullable, w[1..], w[1], m, t);
      c := IncludedContext(g, A, gs, nullable, b, n, w[1], t);
    }
  }

  lemma IncludedContext(g: Packed, A: Automaton, gs: Gotos, nullable: seq<bool>, b: Context, n: nat, n': nat, t: nat)
    returns (c: Context)
    requires Exact(g, A, gs, nullable) && |gs.from| == |gs.to| && Includes(g, A, gs, nullable, n, n')
    requires Surrounds(g, A, gs, b, n', t)
    ensures Surrounds(g, A, gs, c, n, t)
  {
    hide Packed.WellFormed, Canonical, GotosOK, BeginsWith, IsContext, Walks, Packed.Rhs;
    WorldFacts(g, A, gs, nullable);
    var r: nat :| IncludesVia(g, A, gs, nullable, n, n', r);
    var k: nat :| PassesOver(g, A, gs, nullable, n, gs.from[n'], r, k);
    c := Context(b.before + g.Rhs(r)[..k], g.Rhs(r)[k], g.Rhs(r)[k + 1..] + b.after);
    assert ExpandsBy(g, b, c, r, k);
    ExpandsContext(g, b, c);
    WalksSum(A, 0, b.before, gs.from[n'], g.Rhs(r)[..k], gs.from[n]);
    NullableIsNull(g, nullable, r, k + 1);
    StartsOfSum(g, g.Rhs(r)[k + 1..], b.after, t);
  }

  lemma NullableIsNull(g: Packed, nullable: seq<bool>, r: nat, k: nat)
    requires g.WellFormed() && 3 <= r < |g.rlhs| && k <= |g.Rhs(r)| && NullableFrom(nullable, g.Rhs(r), k)
    requires |nullable| == g.nsyms && forall s: nat :: s < g.nsyms ==> (nullable[s] <==> DerivesEmpty(g.ToCfg(), s))
    ensures NullAll(g, g.Rhs(r)[k..])
  {
    forall j | 0 <= j < |g.Rhs(r)[k..]|
      ensures Null(g, g.Rhs(r)[k..][j])
    {
      assert g.Rhs(r)[k..][j] == g.Rhs(r)[k + j];
    }
  }

  /** A lookahead is a token that can come next. */
  lemma LookaheadIsFollowing(g: Packed, A: Automaton, gs: Gotos, nullable: seq<bool>, q: nat, r: nat, t: nat)
    requires Exact(g, A, gs, nullable) && |gs.from| == |gs.to| && Lookahead(g, A, gs, nullable, q, r, t)
    ensures CanFollow(g, A, q, r, t)
  {
    hide Packed.WellFormed, Canonical, GotosOK, BeginsWith, IsContext, Walks, Packed.Rhs, ReadBy;
    WorldFacts(g, A, gs, nullable);
    var n: nat :| Lookback(g, A, gs, q, r, n) && Follows(g, A, gs, nullable, n, t);
    var m: nat :| m < |gs.from| && Reach(IncludesRel(g, A, gs, nullable), n, m) && ReadBy(g, A, gs, nullable, m, t);
    ReadIsToken(g, A, gs, nullable, m, t);
    var w :| Joins(IncludesRel(g, A, gs, nullable), w, n, m);
    var c := FollowContext(g, A, gs, nullable, w, n, m, t);
    WalksSum(A, 0, c.before, gs.from[n], g.Rhs(r), q);
    assert Witness(g, A, c, g.rlhs[r], g.Rhs(r), q, t);
  }

  lemma ReadIsToken(g: Packed, A: Automaton, gs: Gotos, nullable: seq<bool>, m: nat, t: nat)
    requires g.WellFormed() && ReadBy(g, A, gs, nullable, m, t)
    ensures t < g.ntokens
  {}

  /** The lookaheads computed through lookback, includes and reads are exactly the tokens that can come next. */
  lemma LookaheadsFollow(g: Packed, A: Automaton, gs: Gotos, nullable: seq<bool>, q: nat, r: nat, t: nat)
    requires Exact(g, A, gs, nullable)
    ensures Lookahead(g, A, gs, nullable, q, r, t) <==> CanFollow(g, A, q, r, t)
  {
    WorldFacts(g, A, gs, nullable);
    if Lookahead(g, A, gs, nullable, q, r, t) {
      LookaheadIsFollowing(g, A, gs, nullable, q, r, t);
    }
    if CanFollow(g, A, q, r, t) {
      FollowingIsLookahead(g, A, gs, nullable, q, r, t);
    }
  }

  /** Every slot of the lookahead table holds exactly the tokens that can come next where its rule is
      complete. */
  ghost predicate SlotsFollow(g: Packed, A: Automaton, la: seq<nat>, LA: seq<set<nat>>)
    requires g.WellFormed() && |la| >= |A.states| == |A.reductions|
  {
    forall q: nat, k: nat, t: nat :: q < |A.states| && k < |A.reductions[q]| ==>
        la[q] + k < |LA| && (t in LA[la[q] + k] <==> CanFollow(g, A, q, A.reductions[q][k], t))
  }

  lemma AllSlotsFollow(g: Packed, A: Automaton, gs: Gotos, nullable: seq<bool>, la: seq<nat>, ruleno: seq<nat>,
                       LA: seq<set<nat>>)
    requires Exact(g, A, gs, nullable) && LookaheadsOK(g, A, gs, nullable, la, ruleno, LA)
    ensures |la| >= |A.states| == |A.reductions| && SlotsFollow(g, A, la, LA)
  {
    hide CanFollow, Lookahead, Exact, Packed.WellFormed;
    TablesFit(g, A, gs, nullable, la, ruleno);
    forall q: nat, k: nat, t: nat | q < |A.states| && k < |A.reductions[q]|
      ensures la[q] + k < |LA| && (t in LA[la[q] + k] <==> CanFollow(g, A, q, A.reductions[q][k], t))
    {
      LookaheadsFollow(g, A, gs, nullable, q, A.reductions[q][k], t);
    }
  }

  lemma TablesFit(g: Packed, A: Automaton, gs: Gotos, nullable: seq<bool>, la: seq<nat>, ruleno: seq<nat>)
    requires Exact(g, A, gs, nullable) && Layout(A, la, ruleno)
    ensures g.WellFormed() && |la| >= |A.states| == |A.reductions|
  {}
}

/** What shifts and reductions of the generated parser do to its stacks: the state stack stays a
    path of the automaton, the values stay parse trees of its symbols, and together they yield
    exactly the input consumed. */
module MachineStacks {
  import opened Grammar
  import opened LR0
  import opened Paths
  import opened ConflictTable
  import opened ActionRows
  import opened Output
  import opened Machine

  /** The rule the parser numbers y is complete in state q. */
  ghost predicate ReduceSound(g: Packed, A: Automaton, q: nat, y: int) {
    && g.WellFormed() && 1 <= y && y + 2 < |g.rlhs| && q < |A.states|
    && g.rrhs[y + 3] >= 1 && g.rrhs[y + 3] - 1 in ItemsOf(g, A, q)
  }

  /** State n is entered from q over the token with number key. */
  ghost predicate ShiftSound(g: Packed, A: Automaton, q: nat, key: int, n: int) {
    n >= 0 && exists t: nat :: TokenWith(g, t, key) && Goto(A, q, t, n)
  }

  ghost predicate AlternativeSound(g: Packed, A: Automaton, q: nat, key: int, values: seq<int>, reduceFirst: bool,
                                   j: nat) {
    j < |values| && if j == 0 && !reduceFirst then ShiftSound(g, A, q, key, values[0])
        else ReduceSound(g, A, q, values[j])
  }

  /** The list of alternatives at e: perhaps a shift, then reductions. */
  ghost predicate ListIs(g: Packed, A: Automaton, T: Tables, q: nat, key: int, e: int, values: seq<int>,
                         reduceFirst: bool) {
    && e >= 0 && values != [] && NonNegative(values) && StandsAt(T.ctable, e, Encoded(values, reduceFirst))
    && forall j: nat :: j < |values| ==> AlternativeSound(g, A, q, key, values, reduceFirst, j)
  }

  ghost predicate ListSound(g: Packed, A: Automaton, T: Tables, q: nat, key: int, e: int) {
    exists values: seq<int>, reduceFirst: bool :: ListIs(g, A, T, q, key, e, values, reduceFirst)
  }

  /** Every action a state can look up. */
  ghost predicate StateSound(g: Packed, A: Automaton, T: Tables, q: nat)
    requires Shaped(T) && q < |T.defred|
  {
    && T.defred[q] >= 0 && (T.defred[q] != 0 ==> ReduceSound(g, A, q, T.defred[q]))
    && (forall key: nat {:trigger Peek(T, T.sindex, q, key)} ::
          Peek(T, T.sindex, q, key).Some? ==> ShiftSound(g, A, q, key, Peek(T, T.sindex, q, key).value))
    && (forall key: nat {:trigger Peek(T, T.rindex, q, key)} ::
          Peek(T, T.rindex, q, key).Some? ==> ReduceSound(g, A, q, Peek(T, T.rindex, q, key).value))
    && (T.defred[q] == 0 ==> forall key: nat {:trigger Peek(T, T.cindex, q, key)} ::
          Peek(T, T.cindex, q, key).Some? ==> ListSound(g, A, T, q, key, Peek(T, T.cindex, q, key).value))
  }

  /** The tables never lead outside the automaton. */
  ghost predicate TablesSound(g: Packed, A: Automaton, T: Tables) {
    && NaturalCodes(g) && Canonical(g, A) && Shaped(T) && |T.defred| == |A.states|
    && |T.gindex| == g.nsyms - g.ntokens - 1 && |T.lhs| == |g.rlhs| - 2
    && (forall y :: 1 <= y < |T.lhs| ==> T.lhs[y] == g.rlhs[y + 2] - g.ntokens - 1 && T.len[y] == |g.Rhs(y + 2)|)
    && Goto(A, 0, g.ntokens + 1, T.final)
    && (forall p: nat, X: nat, q: nat :: Goto(A, p, X, q) && g.ntokens < X < g.nsyms ==>
        T.GotoTo(p, X - g.ntokens - 1) == q)
    && forall q: nat :: q < |A.states| ==> StateSound(g, A, T, q)
  }

  ghost function Consumed(input: nat -> Lexeme, pos: nat): seq<Lexeme> {
    seq(pos, k requires 0 <= k < pos => input(k))
  }

  ghost predicate ValuesFit(G: Cfg, A: Automaton, st: Stack) {
    && |st.ss| == |st.vals| + 1
    && forall k :: 0 <= k < |st.vals| ==>
        st.ss[k + 1] < |A.states| && Parses(G, st.vals[k], A.states[st.ss[k + 1]].accessing)
  }

  /** The stack invariant at input position pos. */
  ghost predicate StackOK(g: Packed, A: Automaton, input: nat -> Lexeme, st: Stack, pos: nat)
    requires g.WellFormed()
  {
    && IsStatePath(A, st.ss) && st.ss[0] == 0 && ValuesFit(g.ToCfg(), A, st)
    && YieldAll(st.vals) == Consumed(input, pos)
  }

  lemma PathSnoc(A: Automaton, p: seq<nat>, X: nat, q: nat)
    requires IsStatePath(A, p) && Goto(A, p[|p| - 1], X, q)
    ensures IsStatePath(A, p + [q])
  {}

  lemma PathPrefix(A: Automaton, p: seq<nat>, n: nat)
    requires IsStatePath(A, p) && 0 < n <= |p|
    ensures IsStatePath(A, p[..n])
  {}

  /** Shifting the next token. */
  lemma ShiftStack(g: Packed, A: Automaton, input: nat -> Lexeme, st: Stack, pos: nat, n: nat)
    requires NaturalCodes(g) && Canonical(g, A) && StackOK(g, A, input, st, pos)
    requires ShiftSound(g, A, st.ss[|st.ss| - 1], Norm(input(pos).code), n)
    ensures StackOK(g, A, input, Pushed(st, n, Leaf(input(pos))), pos + 1)
  {
    var t: nat :| TokenWith(g, t, Norm(input(pos).code)) && Goto(A, st.ss[|st.ss| - 1], t, n);
    GotoItems(g, A, st.ss[|st.ss| - 1], t, n);
    assert g.value[0] != g.value[t];
    PathSnoc(A, st.ss, t, n);
    YieldAllConcat(st.vals, [Leaf(input(pos))]);
    YieldAllOne(Leaf(input(pos)));
    assert Consumed(input, pos + 1) == Consumed(input, pos) + [input(pos)];
    assert Parses(g.ToCfg(), Leaf(input(pos)), t);
  }

  /** Values whose states were entered by the right-hand side make a node. */
  lemma NodeParses(g: Packed, A: Automaton, st: Stack, y: int, n: nat)
    requires g.WellFormed() && 0 <= y && 2 <= y + 2 < |g.rlhs| && ValuesFit(g.ToCfg(), A, st) &&
        n + |g.Rhs(y + 2)| == |st.vals|
    requires (forall k :: 0 <= k < |st.ss| ==> st.ss[k] < |A.states|) && Trail(A, st.ss[n + 1..]) == g.Rhs(y + 2)
    ensures Parses(g.ToCfg(), Node(y, st.vals[n..]), g.rlhs[y + 2])
  {
    hide Packed.WellFormed, Packed.Rhs;
    var G, rhs := g.ToCfg(), g.Rhs(y + 2);
    assert G.productions[y] == Production(g.rlhs[y + 2], rhs);
    var cs := st.vals[n..];
    forall k | 0 <= k < |cs|
      ensures Parses(G, cs[k], rhs[k])
    {
      assert Trail(A, st.ss[n + 1..])[k] == A.states[st.ss[n + 1 + k]].accessing && cs[k] == st.vals[n + k];
    }
  }

  /** The popped values parse the right-hand side, and the left-hand side can be pushed. */
  lemma PopStack(g: Packed, A: Automaton, st: Stack, y: int) returns (q: nat)
    requires g.WellFormed() && Canonical(g, A) && IsStatePath(A, st.ss) && st.ss[0] == 0 && ValuesFit(g.ToCfg(), A, st)
    requires ReduceSound(g, A, st.ss[|st.ss| - 1], y)
    ensures |g.Rhs(y + 2)| <= |st.vals|
    ensures var n := |st.vals| - |g.Rhs(y + 2)|;
            Parses(g.ToCfg(), Node(y, st.vals[n..]), g.rlhs[y + 2]) && Goto(A, st.ss[n], g.rlhs[y + 2], q)
  {
    hide Canonical, ItemsOf, Goto;
    var r := y + 2;
    var m := |g.Rhs(r)|;
    var i := g.rrhs[r + 1] - 1;
    assert g.RuleShape(r);
    assert InRule(g, i, r);
    PathSpells(g, A, st.ss, i, r, m);
    var n := |st.vals| - m;
    assert st.ss[|st.ss| - m..] == st.ss[n + 1..] && g.Rhs(r)[..m] == g.Rhs(r);
    NodeParses(g, A, st, y, n);
    q := LhsGoto(g, A, st.ss[n], r);
  }

  /** Stack contents and symbol of one reduction. */
  lemma ReduceStack(g: Packed, A: Automaton, T: Tables, input: nat -> Lexeme, st: Stack, pos: nat, y: int)
    requires TablesSound(g, A, T) && StackOK(g, A, input, st, pos) && ReduceSound(g, A, st.ss[|st.ss| - 1], y)
    ensures Reduction(T, st, y).Reduced?
    ensures StackOK(g, A, input, Reduction(T, st, y).stack, pos)
    ensures Reduction(T, st, y).goal ==>
              Reduction(T, st, y).stack.vals == [Reduction(T, st, y).tree] &&
              Parses(g.ToCfg(), Reduction(T, st, y).tree, g.ntokens + 1)
  {
    hide YieldAll, Parses, StateSound, Canonical, Consumed, Goto;
    var q := PopStack(g, A, st, y);
    var X := g.rlhs[y + 2];
    var n := |st.vals| - |g.Rhs(y + 2)|;
    assert T.lhs[y] == X - g.ntokens - 1;
    var below := Stack(st.ss[..n + 1], st.vals[..n]);
    var tree := Node(y, st.vals[n..]);
    if st.ss[n] == 0 && T.lhs[y] == 0 {
      GotoUnique(g, A, 0, X, q, T.final);
      BottomOnly(g, A, st.ss, n);
    } else {
      assert T.GotoTo(st.ss[n], X - g.ntokens - 1) == q;
    }
    assert Reduction(T, st, y).Reduced? && Reduction(T, st, y).stack == Pushed(below, q, tree);
    PushStack(g, A, st, n, X, q, tree);
  }

  /** Replacing the top values by one tree over them. */
  lemma PushStack(g: Packed, A: Automaton, st: Stack, n: nat, X: nat, q: nat, tree: Tree)
    requires g.WellFormed() && IsStatePath(A, st.ss) && ValuesFit(g.ToCfg(), A, st) && n <= |st.vals|
    requires Goto(A, st.ss[n], X, q) && tree.Node? && tree.children == st.vals[n..] && Parses(g.ToCfg(), tree, X)
    ensures var st' := Pushed(Stack(st.ss[..n + 1], st.vals[..n]), q, tree);
            IsStatePath(A, st'.ss) && st'.ss[0] == st.ss[0] && ValuesFit(g.ToCfg(), A, st') &&
                YieldAll(st'.vals) == YieldAll(st.vals)
  {
    hide YieldAll, Parses, Packed.WellFormed, Packed.ToCfg;
    PathPrefix(A, st.ss, n + 1);
    PathSnoc(A, st.ss[..n + 1], X, q);
    SameYield(st.vals, n, tree);
  }

  lemma SameYield(vals: seq<Tree>, n: nat, tree: Tree)
    requires n <= |vals| && tree.Node? && tree.children == vals[n..]
    ensures YieldAll(vals[..n] + [tree]) == YieldAll(vals)
  {
    hide YieldAll;
    YieldAllConcat(vals[..n], [tree]);
    YieldAllOne(tree);
    YieldAllConcat(vals[..n], vals[n..]);
    assert vals == vals[..n] + vals[n..];
  }

  /** State 0 is never entered: it stands at the bottom only. */
  lemma BottomOnly(g: Packed, A: Automaton, p: seq<nat>, n: nat)
    requires Canonical(g, A) && IsStatePath(A, p) && n < |p| && p[n] == 0
    ensures n == 0
  {
    if n > 0 {
      var k := n - 1;
      assert Goto(A, p[k], A.states[p[k + 1]].accessing, p[k + 1]);
      GotoItems(g, A, p[k], A.states[p[k + 1]].accessing, p[k + 1]);
      assert false;
    }
  }
}

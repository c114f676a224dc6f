/** What the canonical collection says about paths through the automaton: the facts the
    lookahead relations and the generated parser rest on. */
module Paths {
  import opened Reachability
  import opened Grammar
  import opened Closure
  import opened LR0

  /** q is entered from p over X. */
  ghost predicate Goto(A: Automaton, p: nat, X: nat, q: nat) {
    p < |A.shifts| && q in A.shifts[p] && q < |A.states| && A.states[q].accessing == X
  }

  ghost function ItemsOf(g: Packed, A: Automaton, q: nat): iset<nat>
    requires q < |A.states|
  {
    ClosureOf(g, A.states[q].items)
  }

  /** A state path: each state entered from the one before it. */
  ghost predicate IsStatePath(A: Automaton, p: seq<nat>) {
    && p != [] && (forall k :: 0 <= k < |p| ==> p[k] < |A.states|)
    && forall k :: 0 <= k < |p| - 1 ==> Goto(A, p[k], A.states[p[k + 1]].accessing, p[k + 1])
  }

  lemma GotoItems(g: Packed, A: Automaton, p: nat, X: nat, q: nat)
    requires Canonical(g, A) && Goto(A, p, X, q)
    ensures 0 < X < g.nsyms && Lists(A.states[q].items, Advance(g, ItemsOf(g, A, p), X)) && 0 < q
  {
    assert RowsOK(g, A.states, A.shifts, A.reductions, p);
    var k :| 0 <= k < |A.shifts[p]| && A.shifts[p][k] == q;
    assert GotoOK(g, A.states, ItemsOf(g, A, p), X, q);
    assert KernelOK(g, A.states[q]);
  }

  lemma GotoUnique(g: Packed, A: Automaton, p: nat, X: nat, q: nat, q': nat)
    requires Canonical(g, A) && Goto(A, p, X, q) && Goto(A, p, X, q')
    ensures q == q'
  {
    assert RowsOK(g, A.states, A.shifts, A.reductions, p);
  }

  lemma GotoExists(g: Packed, A: Automaton, p: nat, i: nat) returns (q: nat)
    requires g.WellFormed() && Canonical(g, A) && p < |A.states| && i in ItemsOf(g, A, p)
    requires i < |g.ritem| && g.ritem[i] > 0
    ensures Goto(A, p, g.ritem[i], q) && i + 1 in ItemsOf(g, A, q)
  {
    assert RowsOK(g, A.states, A.shifts, A.reductions, p);
    assert HasSymbol(g, ItemsOf(g, A, p), g.ritem[i]);
    var k :| 0 <= k < |A.shifts[p]| && A.states[A.shifts[p][k]].accessing == g.ritem[i];
    q := A.shifts[p][k];
    GotoItems(g, A, p, g.ritem[i], q);
    assert MovedItem(g, ItemsOf(g, A, p), g.ritem[i], i + 1);
    ClosureIsClosed(g, A.states[q].items);
  }

  /** An item of the closure outside the kernel was predicted by another item of it. */
  lemma PredictedFrom(g: Packed, kernel: seq<nat>, i: nat) returns (x: nat)
    requires i in ClosureOf(g, kernel) && i !in kernel
    ensures x in ClosureOf(g, kernel) && ItemRel(g)(x, i)
  {
    var k :| k in kernel && Reach(ItemRel(g), k, i);
    var p :| Joins(ItemRel(g), p, k, i);
    assert |p| > 1;
    var n := |p| - 2;
    assert Joins(ItemRel(g), p[..n + 1], k, p[n]);
    x := p[n];
    assert InClosure(g, kernel, x);
  }

  lemma ItemsInRules(g: Packed, A: Automaton, q: nat, i: nat)
    requires g.WellFormed() && Canonical(g, A) && q < |A.states| && i in ItemsOf(g, A, q)
    ensures 1 <= i < |g.ritem| && g.ritem[i] < g.nsyms
  {
    StateItems(g, A.states, q);
    ClosureItems(g, A.states[q].items);
  }

  /** The dot is at the start of rule r in state p only if the rule was predicted there. */
  lemma StartIsPredicted(g: Packed, A: Automaton, p: nat, r: nat) returns (x: nat)
    requires g.WellFormed() && Canonical(g, A) && p < |A.states| && 3 <= r < |g.rlhs|
    requires g.rrhs[r] in ItemsOf(g, A, p)
    ensures x in ItemsOf(g, A, p) && x < |g.ritem| && g.ritem[x] == g.rlhs[r]
  {
    var i := g.rrhs[r];
    assert g.RuleShape(r);
    RrhsAscends(g, 3, r);
    if i in A.states[p].items {
      KernelPastStart(g, A, p, r);
    }
    x := PredictedFrom(g, A.states[p].items, i);
    var q: nat :| 2 <= q < |g.rlhs| && g.rlhs[q] == g.ritem[x] && g.rrhs[q] == i;
    assert InRule(g, i, r);
    assert g.RuleShape(q);
    RuleIsUnique(g, i, r, q);
  }

  lemma KernelPastStart(g: Packed, A: Automaton, p: nat, r: nat)
    requires g.WellFormed() && Canonical(g, A) && p < |A.states| && 3 <= r < |g.rlhs|
    ensures g.rrhs[r] !in A.states[p].items
  {
    RrhsAscends(g, 3, r);
    if p > 0 && g.rrhs[r] in A.states[p].items {
      assert KernelOK(g, A.states[p]);
      var q := ItemHasRule(g, g.rrhs[r] - 1);
      ItemAt(g, g.rrhs[r] - 1, q);
      assert InRule(g, g.rrhs[r], q);
      assert g.RuleShape(r);
      RuleIsUnique(g, g.rrhs[r], q, r);
    }
  }

  /** Where rule r >= 3 can start, its left-hand side can be shifted. */
  lemma LhsGoto(g: Packed, A: Automaton, p: nat, r: nat) returns (q: nat)
    requires g.WellFormed() && Canonical(g, A) && p < |A.states| && 3 <= r < |g.rlhs|
    requires g.rrhs[r] in ItemsOf(g, A, p)
    ensures Goto(A, p, g.rlhs[r], q)
  {
    var x := StartIsPredicted(g, A, p, r);
    q := GotoExists(g, A, p, x);
  }

  /** One step back along a path: the dot moves back over the symbol the state was entered by. */
  lemma StepBack(g: Packed, A: Automaton, p: nat, q: nat, X: nat, i: nat, r: nat)
    requires g.WellFormed() && Canonical(g, A) && Goto(A, p, X, q)
    requires i in ItemsOf(g, A, q) && InRule(g, i, r) && i > g.rrhs[r]
    ensures i - 1 in ItemsOf(g, A, p) && g.ritem[i - 1] == X && InRule(g, i - 1, r)
  {
    GotoItems(g, A, p, X, q);
    var kernel := A.states[q].items;
    if i !in kernel {
      var x := PredictedFrom(g, kernel, i);
      var s: nat :| 2 <= s < |g.rlhs| && g.rlhs[s] == g.ritem[x] && g.rrhs[s] == i;
      assert g.RuleShape(s);
      assert InRule(g, i, s);
      RuleIsUnique(g, i, r, s);
    }
    assert MovedItem(g, ItemsOf(g, A, p), X, i);
  }

  /** The symbols the states of p were entered by. */
  ghost function Trail(A: Automaton, p: seq<nat>): (t: seq<nat>)
    requires forall k :: 0 <= k < |p| ==> p[k] < |A.states|
    ensures |t| == |p|
  {
    seq(|p|, k requires 0 <= k < |p| => A.states[p[k]].accessing)
  }

  lemma DotInRhs(g: Packed, i: nat, r: nat)
    requires g.WellFormed() && InRule(g, i, r)
    ensures i - g.rrhs[r] <= |g.Rhs(r)|
  {
    assert g.RuleShape(r);
  }

  /** The last symbols of a state path spell what is before the dot of any item of its last
      state, and the rule of the item starts that many states before. */
  lemma {:induction false} PathSpells(g: Packed, A: Automaton, p: seq<nat>, i: nat, r: nat, m: nat)
    requires g.WellFormed() && Canonical(g, A) && IsStatePath(A, p) && p[0] == 0
    requires i in ItemsOf(g, A, p[|p| - 1]) && InRule(g, i, r) && i == g.rrhs[r] + m
    ensures m < |p| && m <= |g.Rhs(r)|
    ensures g.rrhs[r] in ItemsOf(g, A, p[|p| - 1 - m])
    ensures Trail(A, p[|p| - m..]) == g.Rhs(r)[..m]
    decreases m
  {
    hide Packed.WellFormed, Canonical, ClosureOf, Packed.Rhs;
    var n := |p| - 1;
    DotInRhs(g, i, r);
    if m > 0 {
      if n == 0 {
        StartItems(g, A, i, r);
      } else {
        StepBack(g, A, p[n - 1], p[n], A.states[p[n]].accessing, i, r);
        PathSpells(g, A, p[..n], i - 1, r, m - 1);
        ItemAt(g, i - 1, r);
        assert p[|p| - m..] == p[..n][n - (m - 1)..] + [p[n]];
        assert g.Rhs(r)[..m] == g.Rhs(r)[..m - 1] + [g.Rhs(r)[m - 1]];
      }
    }
  }

  /** In state 0 every dot is at the start of its rule. */
  lemma StartItems(g: Packed, A: Automaton, i: nat, r: nat)
    requires g.WellFormed() && Canonical(g, A) && i in ItemsOf(g, A, 0) && InRule(g, i, r)
    ensures i == g.rrhs[r]
  {
    if i == 1 {
      RuleIsUnique(g, 1, r, 2);
    } else {
      var x := PredictedFrom(g, A.states[0].items, i);
      var s: nat :| 2 <= s < |g.rlhs| && g.rlhs[s] == g.ritem[x] && g.rrhs[s] == i;
      assert g.RuleShape(s);
      assert InRule(g, i, s);
      RuleIsUnique(g, i, r, s);
    }
  }
}

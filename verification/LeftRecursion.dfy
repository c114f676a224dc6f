/** Where reductions can go round: states that circle show a symbol of the grammar that derives itself
    alone, or that derives a string starting with symbols that may be empty and then itself. */
module LeftRecursion {
  import opened Reachability
  import opened Grammar
  import opened Firsts
  import opened Closure
  import opened LR0
  import opened Paths
  import opened ActionRows
  import opened Output
  import opened Machine
  import opened MachineStacks
  import opened Reductions
  import Completeness

  /** The rest may be empty too. */
  ghost predicate BecomesBy(g: Packed, r: nat, m: nat, B: nat, C: nat)
    requires g.WellFormed()
  {
    Begins(g, r, m, B, C) && NullAll(g, g.Rhs(r)[m + 1..])
  }

  /** B derives C alone. */
  ghost function UnitRel(g: Packed): Rel
    requires g.WellFormed()
  {
    (B: nat, C: nat) => exists r: nat, m: nat :: BecomesBy(g, r, m, B, C)
  }

  ghost predicate Behind(g: Packed, r: nat, m: nat, B: nat, C: nat)
    requires g.WellFormed()
  {
    m > 0 && Begins(g, r, m, B, C) && Reach(LeftRel(g), C, B)
  }

  /** Some symbol derives itself alone. */
  ghost predicate Cyclic(g: Packed)
    requires g.WellFormed()
  {
    exists B: nat :: ReachPlus(UnitRel(g), B, B)
  }

  /** Some symbol derives itself behind symbols that may be empty. */
  ghost predicate HiddenLeft(g: Packed)
    requires g.WellFormed()
  {
    exists r: nat, m: nat, B: nat, C: nat :: Behind(g, r, m, B, C)
  }

  lemma BecomesNull(g: Packed, B: nat, C: nat)
    requires g.WellFormed() && UnitRel(g)(B, C) && Null(g, C)
    ensures Null(g, B)
  {
    var r: nat, m: nat :| BecomesBy(g, r, m, B, C);
    forall k | 0 <= k < |g.Rhs(r)|
      ensures Null(g, g.Rhs(r)[k])
    {
      if k < m {
        assert Null(g, g.Rhs(r)[..m][k]);
      } else if k > m {
        assert Null(g, g.Rhs(r)[m + 1..][k - m - 1]);
      }
    }
    RuleNull(g, r);
  }

  lemma {:induction false} ReachNull(g: Packed, p: seq<nat>, B: nat, C: nat)
    requires g.WellFormed() && Joins(UnitRel(g), p, B, C) && Null(g, C)
    ensures Null(g, B)
    decreases |p|
  {
    hide Null, UnitRel, Packed.WellFormed;
    if |p| > 1 {
      assert Joins(UnitRel(g), p[1..], p[1], C);
      ReachNull(g, p[1..], p[1], C);
      BecomesNull(g, B, p[1]);
    }
  }

  /** The symbol state k of a path was entered by. */
  ghost function SymbolAt(A: Automaton, s: seq<nat>, k: nat): nat
    requires k < |s| && s[k] < |A.states|
  {
    A.states[s[k]].accessing
  }

  /** What stands above p, when reductions have come from p and a state entered by X: a symbol that
      derives X alone, and symbols that may be empty. */
  ghost predicate Stands(g: Packed, A: Automaton, a: seq<nat>, X: nat, s: seq<nat>)
    requires g.WellFormed()
  {
    && |s| >= 2 && IsStatePath(A, a + s) && (a + s)[0] == 0
    && (forall k :: 0 <= k < |s| ==> s[k] < |A.states|)
    && Reach(UnitRel(g), SymbolAt(A, s, 1), X)
    && forall k :: 2 <= k < |s| ==> Null(g, SymbolAt(A, s, k))
  }

  /** What a reduction by y takes off the stack spells its right-hand side. */
  lemma Popped(g: Packed, A: Automaton, T: Tables, s: seq<nat>, y: int) returns (r: nat, n: nat)
    requires TablesSound(g, A, T) && g.WellFormed() && IsStatePath(A, s) && s[0] == 0 &&
        ReduceSound(g, A, s[|s| - 1], y)
    ensures r == y + 2 && 3 <= r < |g.rlhs| && y < |T.len| && y < |T.lhs| && T.len[y] == |g.Rhs(r)| < |s|
    ensures Trail(A, s[|s| - |g.Rhs(r)|..]) == g.Rhs(r)
    ensures Goto(A, s[|s| - 1 - |g.Rhs(r)|], g.rlhs[r], n)
    ensures var p := s[|s| - 1 - |g.Rhs(r)|];
            if p == 0 && T.lhs[y] == 0 then T.final == n else 0 <= T.lhs[y] < |T.gindex| && T.GotoTo(p, T.lhs[y]) == n
  {
    hide Canonical, ItemsOf, Goto, StateSound, NaturalCodes;
    r := y + 2;
    var l := |g.Rhs(r)|;
    assert g.RuleShape(r);
    assert InRule(g, g.rrhs[r + 1] - 1, r);
    PathSpells(g, A, s, g.rrhs[r + 1] - 1, r, l);
    assert g.Rhs(r)[..l] == g.Rhs(r);
    n := LhsGoto(g, A, s[|s| - 1 - l], r);
    Completeness.LhsPushed(g, A, T, s[|s| - 1 - l], y, n);
  }

  /** A reduction on a + s, seen above a. */
  lemma PoppedAbove(g: Packed, A: Automaton, T: Tables, key: nat, a: seq<nat>, s: seq<nat>, t: seq<nat>)
    returns (r: nat)
    requires TablesSound(g, A, T) && Shaped(T) && g.WellFormed() && s != [] && IsStatePath(A, a + s) && (a + s)[0] == 0
    requires Reduces(T, true, key, s, t)
    ensures 3 <= r < |g.rlhs| && |g.Rhs(r)| < |s| && |t| == |s| - |g.Rhs(r)| + 1 && t[..|t| - 1] == s[..|t| - 1]
    ensures forall k :: 0 <= k < |g.Rhs(r)| ==>
              s[|s| - |g.Rhs(r)| + k] < |A.states| && SymbolAt(A, s, |s| - |g.Rhs(r)| + k) == g.Rhs(r)[k]
    ensures IsStatePath(A, a + t) && (a + t)[0] == 0 && t[|t| - 1] < |A.states| && SymbolAt(A, t, |t| - 1) == g.rlhs[r]
  {
    hide TablesSound, Tries, Goto, Packed.WellFormed, Packed.Rhs;
    var y :| ReducesBy(T, true, key, s, t, y);
    var u := a + s;
    assert u[|u| - 1] == s[|s| - 1];
    TriedHere(g, A, T, key, u, y);
    var n;
    r, n := Popped(g, A, T, u, y);
    var l := |g.Rhs(r)|;
    var below := s[..|s| - l];
    assert u[|u| - l..] == s[|s| - l..];
    forall k | 0 <= k < l
      ensures s[|s| - l + k] < |A.states| && SymbolAt(A, s, |s| - l + k) == g.Rhs(r)[k]
    {
      assert Trail(A, u[|u| - l..])[k] == A.states[u[|u| - l + k]].accessing;
    }
    assert t == below + [n] && below[|below| - 1] == u[|u| - 1 - l];
    PathPrefix(A, u, |u| - l);
    PathSnoc(A, u[..|u| - l], g.rlhs[r], n);
    assert a + t == u[..|u| - l] + [n];
    EnteredBy(A, u[|u| - 1 - l], g.rlhs[r], n);
  }

  lemma EnteredBy(A: Automaton, p: nat, X: nat, q: nat)
    requires Goto(A, p, X, q)
    ensures q < |A.states| && A.states[q].accessing == X
  {}

  lemma TriedHere(g: Packed, A: Automaton, T: Tables, key: nat, s: seq<nat>, y: int)
    requires TablesSound(g, A, T) && Shaped(T) && IsStatePath(A, s) && Tries(T, true, s[|s| - 1], key, y)
    ensures ReduceSound(g, A, s[|s| - 1], y)
  {
    TriedIsSound(g, A, T, true, s[|s| - 1], key, y);
  }

  /** One reduction: of everything above p, to a symbol that derives what stood there alone, or of
      symbols that may be empty, to another. */
  lemma StandsNext(g: Packed, A: Automaton, T: Tables, key: nat, a: seq<nat>, X: nat, s: seq<nat>, t: seq<nat>)
    requires TablesSound(g, A, T) && Shaped(T) && g.WellFormed() && Stands(g, A, a, X, s) &&
        Reduces(T, true, key, s, t) && |t| >= 2
    ensures Stands(g, A, a, X, t) && t[0] == s[0]
    ensures |t| == 2 ==> ReachPlus(UnitRel(g), SymbolAt(A, t, 1), X)
  {
    hide TablesSound, Reduces, Packed.WellFormed, Packed.Rhs, Null, IsStatePath, UnitRel;
    var r := PoppedAbove(g, A, T, key, a, s, t);
    var Xs := g.Rhs(r);
    InPath(A, a, t);
    if |t| == 2 {
      assert SymbolAt(A, s, 1) == Xs[0];
      forall k | 1 <= k < |Xs|
        ensures Null(g, Xs[k])
      {
        assert SymbolAt(A, s, 1 + k) == Xs[k];
      }
      BecomesFirst(g, r, SymbolAt(A, t, 1), SymbolAt(A, s, 1));
      ReachIsReflexivePlus(UnitRel(g), SymbolAt(A, t, 1), X);
    } else {
      forall k | 0 <= k < |Xs|
        ensures Null(g, Xs[k])
      {
        assert SymbolAt(A, s, |s| - |Xs| + k) == Xs[k];
      }
      RuleNull(g, r);
      forall k | 0 <= k < |t| - 1
        ensures t[k] == s[k]
      {
        assert t[..|t| - 1][k] == s[..|t| - 1][k];
      }
      forall k | 2 <= k < |t|
        ensures Null(g, SymbolAt(A, t, k))
      {
        if k < |t| - 1 {
          assert SymbolAt(A, t, k) == SymbolAt(A, s, k);
        }
      }
    }
  }

  lemma InPath(A: Automaton, a: seq<nat>, t: seq<nat>)
    requires IsStatePath(A, a + t)
    ensures forall k :: 0 <= k < |t| ==> t[k] < |A.states|
  {
    forall k | 0 <= k < |t|
      ensures t[k] < |A.states|
    {
      assert (a + t)[|a| + k] == t[k];
    }
  }

  lemma BecomesFirst(g: Packed, r: nat, B: nat, C: nat)
    requires g.WellFormed() && 3 <= r < |g.rlhs| && g.rlhs[r] == B && |g.Rhs(r)| > 0 && g.Rhs(r)[0] == C
    requires forall k :: 1 <= k < |g.Rhs(r)| ==> Null(g, g.Rhs(r)[k])
    ensures UnitRel(g)(B, C)
  {
    hide Null;
    assert BecomesBy(g, r, 0, B, C);
  }

  /** All along a circle. */
  lemma {:induction false} StandsAlong(g: Packed, A: Automaton, T: Tables, key: nat, a: seq<nat>, X: nat,
                                       c: seq<seq<nat>>, n: nat)
    requires TablesSound(g, A, T) && Shaped(T) && g.WellFormed() && Chain(T, true, key, c) && n < |c| &&
        Stands(g, A, a, X, c[0])
    ensures Stands(g, A, a, X, c[n]) && c[n][0] == c[0][0]
    ensures n > 0 && |c[n]| == 2 ==> ReachPlus(UnitRel(g), SymbolAt(A, c[n], 1), X)
  {
    hide TablesSound, Shaped, Packed.WellFormed, Stands, UnitRel, IsStatePath, Reduces;
    if n > 0 {
      StandsAlong(g, A, T, key, a, X, c, n - 1);
      assert Reduces(T, true, key, c[n - 1], c[n]);
      ReducedTwo(T, key, c[n - 1], c[n]);
      StandsNext(g, A, T, key, a, X, c[n - 1], c[n]);
    }
    StandsPath(g, A, a, X, c[n]);
  }

  lemma StandsPath(g: Packed, A: Automaton, a: seq<nat>, X: nat, s: seq<nat>)
    requires g.WellFormed() && Stands(g, A, a, X, s)
    ensures |s| >= 2 && forall k :: 0 <= k < |s| ==> s[k] < |A.states|
  {}

  lemma ReducedTwo(T: Tables, key: nat, s: seq<nat>, t: seq<nat>)
    requires Shaped(T) && Reduces(T, true, key, s, t)
    ensures |t| >= 2
  {}

  /** State k of w is entered from the one before it, over a symbol that may be empty. */
  ghost predicate NullStep(g: Packed, A: Automaton, w: seq<nat>, k: nat)
    requires g.WellFormed()
  {
    0 < k < |w| && 0 < w[k] < |A.states| && Goto(A, w[k - 1], SymbolAt(A, w, k), w[k]) && Null(g, SymbolAt(A, w, k))
  }

  /** A circle of such states: w leads from a state back to it. */
  ghost predicate NullCircle(g: Packed, A: Automaton, w: seq<nat>)
    requires g.WellFormed()
  {
    && |w| >= 2 && w[0] == w[|w| - 1] && (forall k :: 0 <= k < |w| ==> 0 < w[k] < |A.states|)
    && forall k :: 0 < k < |w| ==> NullStep(g, A, w, k)
  }

  /** Back along the circle to where the rule of an item starts: what is before its dot may be empty. */
  lemma {:induction false} BackToStart(g: Packed, A: Automaton, w: seq<nat>, k: nat, i: nat, r: nat, m: nat)
    returns (l: nat)
    requires g.WellFormed() && Canonical(g, A) && NullCircle(g, A, w) && 0 < k < |w|
    requires i in ItemsOf(g, A, w[k]) && InRule(g, i, r) && i == g.rrhs[r] + m
    ensures 0 < l < |w| && g.rrhs[r] in ItemsOf(g, A, w[l]) && m <= |g.Rhs(r)| && NullAll(g, g.Rhs(r)[..m])
    decreases m
  {
    hide Canonical, Packed.WellFormed, Packed.Rhs, ClosureOf, Null, Goto;
    DotInRhs(g, i, r);
    if m == 0 {
      l := k;
    } else {
      var X := SymbolAt(A, w, k);
      assert NullStep(g, A, w, k);
      StepBack(g, A, w[k - 1], w[k], X, i, r);
      l := BackToStart(g, A, w, if k == 1 then |w| - 1 else k - 1, i - 1, r, m - 1);
      ItemAt(g, i - 1, r);
      assert g.Rhs(r)[..m] == g.Rhs(r)[..m - 1] + [X];
    }
  }

  /** The start rule starts in state 0 only. */
  lemma StartOnlyAtZero(g: Packed, A: Automaton, q: nat)
    requires g.WellFormed() && Canonical(g, A) && 0 < q < |A.states|
    ensures 1 !in ItemsOf(g, A, q)
  {
    assert KernelOK(g, A.states[q]);
    if 1 in ItemsOf(g, A, q) {
      var x := PredictedFrom(g, A.states[q].items, 1);
      ItemsInRules(g, A, q, x);
      var r := ItemHasRule(g, x);
      ItemAt(g, x, r);
      var s: nat :| 2 <= s < |g.rlhs| && g.rlhs[s] == g.ritem[x] && g.rrhs[s] == 1;
      if s > 2 {
        RrhsAscends(g, 3, s);
      }
      assert false;
    }
  }

  /** Predictions lead leftward. */
  lemma PredictsLeft(g: Packed, i: nat, r: nat, m: nat, j: nat) returns (s: nat)
    requires g.WellFormed() && 3 <= r && InRule(g, i, r) && i == g.rrhs[r] + m && ItemRel(g)(i, j)
    requires m < |g.Rhs(r)| ==> NullAll(g, g.Rhs(r)[..m])
    ensures 3 <= s < |g.rlhs| && g.rrhs[s] == j && Begins(g, r, m, g.rlhs[r], g.rlhs[s])
  {
    hide Null;
    ItemAt(g, i, r);
    s :| 2 <= s < |g.rlhs| && s < |g.rrhs| && g.rlhs[s] == g.ritem[i] && g.rrhs[s] == j;
    DotInRhs(g, i, r);
  }

  /** Item i is the start of a rule for a symbol that B leads to. */
  ghost predicate StartsFor(g: Packed, i: nat, s: nat, C: nat)
    requires g.WellFormed()
  {
    3 <= s < |g.rlhs| && g.rrhs[s] == i && Reach(LeftRel(g), C, g.rlhs[s])
  }

  /** Along a path of predictions from the start of a rule. */
  lemma {:induction false} PredictionsLeft(g: Packed, p: seq<nat>, r: nat, C: nat) returns (s: nat)
    requires g.WellFormed() && IsPath(ItemRel(g), p) && StartsFor(g, p[0], r, C)
    ensures StartsFor(g, p[|p| - 1], s, C)
    decreases |p|
  {
    hide Packed.WellFormed, Null, Begins;
    if |p| == 1 {
      s := r;
    } else {
      assert ItemRel(g)(p[0], p[1]);
      RuleStart(g, r);
      var q := PredictsLeft(g, p[0], r, 0, p[1]);
      assert LeftRel(g)(g.rlhs[r], g.rlhs[q]);
      ReachSnoc(LeftRel(g), C, g.rlhs[r], g.rlhs[q]);
      s := PredictionsLeft(g, p[1..], q, C);
    }
  }

  lemma RuleStart(g: Packed, r: nat)
    requires g.WellFormed() && 2 <= r < |g.rlhs|
    ensures r < |g.rrhs| && InRule(g, g.rrhs[r], r) && NullAll(g, g.Rhs(r)[..0])
  {
    assert g.RuleShape(r);
  }

  /** B leads to C behind symbols that may be empty. */
  ghost predicate Hides(g: Packed, r: nat, m: nat, B: nat, C: nat, D: nat)
    requires g.WellFormed()
  {
    m > 0 && Begins(g, r, m, B, D) && Reach(LeftRel(g), D, C)
  }

  /** The left-hand side of rule q leads to that of rule r. */
  ghost predicate HidesSome(g: Packed, q: nat, r: nat)
    requires g.WellFormed()
  {
    q < |g.rlhs| && r < |g.rlhs| && exists m: nat, D: nat :: Hides(g, q, m, g.rlhs[q], g.rlhs[r], D)
  }

  /** What an item inside rule q predicts is behind what is before its dot. */
  lemma PredictedBehind(g: Packed, i: nat, q: nat, m: nat, r: nat)
    requires g.WellFormed() && 3 <= q && InRule(g, i, q) && i == g.rrhs[q] + m && m > 0 && m <= |g.Rhs(q)|
    requires NullAll(g, g.Rhs(q)[..m])
    requires 3 <= r < |g.rlhs| && r < |g.rrhs| && Reach(ItemRel(g), i, g.rrhs[r]) && i != g.rrhs[r]
    ensures HidesSome(g, q, r)
  {
    hide Packed.WellFormed, Packed.Rhs, Null, ItemRel, Begins;
    var p :| Joins(ItemRel(g), p, i, g.rrhs[r]);
    assert ItemRel(g)(p[0], p[1]);
    var s := PredictsLeft(g, i, q, m, p[1]);
    ReachRefl(LeftRel(g), g.rlhs[s]);
    var e := PredictionsLeft(g, p[1..], s, g.rlhs[s]);
    SameStart(g, e, r);
    assert Hides(g, q, m, g.rlhs[q], g.rlhs[r], g.rlhs[s]);
  }

  /** A rule that starts somewhere on the circle was predicted by an item inside another rule, which
      starts on the circle too. */
  lemma HiddenAbove(g: Packed, A: Automaton, w: seq<nat>, k: nat, r: nat) returns (l: nat, q: nat)
    requires g.WellFormed() && Canonical(g, A) && NullCircle(g, A, w) && 0 < k < |w|
    requires 3 <= r < |g.rlhs| && g.rrhs[r] in ItemsOf(g, A, w[k])
    ensures 0 < l < |w| && 3 <= q < |g.rlhs| && g.rrhs[q] in ItemsOf(g, A, w[l])
    ensures HidesSome(g, q, r)
  {
    hide Canonical, Packed.WellFormed, Packed.Rhs, Null, NullStep, ItemRel, HidesSome, InRule;
    var kernel := A.states[w[k]].items;
    RuleStart(g, r);
    KernelPastStart(g, A, w[k], r);
    var i :| i in kernel && Reach(ItemRel(g), i, g.rrhs[r]);
    var m;
    q, m := KernelRule(g, A, w[k], i);
    ClosureIsClosed(g, kernel);
    l := BackToStart(g, A, w, k, i, q, m);
    if q == 2 {
      StartIsOne(g);
      StartOnlyAtZero(g, A, w[l]);
    }
    PredictedBehind(g, i, q, m, r);
  }

  lemma StartIsOne(g: Packed)
    requires g.WellFormed()
    ensures g.rrhs[2] == 1
  {}

  lemma SameStart(g: Packed, r: nat, s: nat)
    requires g.WellFormed() && 2 <= r < |g.rlhs| && 2 <= s < |g.rlhs| && g.rrhs[r] == g.rrhs[s]
    ensures r == s
  {
    RuleStart(g, r);
    RuleStart(g, s);
    RuleIsUnique(g, g.rrhs[r], r, s);
  }

  /** A kernel item is inside its rule. */
  lemma KernelRule(g: Packed, A: Automaton, q: nat, i: nat) returns (r: nat, m: nat)
    requires g.WellFormed() && Canonical(g, A) && 0 < q < |A.states| && i in A.states[q].items
    ensures 2 <= r < |g.rlhs| && r < |g.rrhs| && InRule(g, i, r) && m > 0 && i == g.rrhs[r] + m
  {
    assert KernelOK(g, A.states[q]);
    r := ItemHasRule(g, i - 1);
    ItemAt(g, i - 1, r);
    assert g.RuleShape(r);
    m := i - g.rrhs[r];
  }

  ghost predicate Rising(g: Packed, A: Automaton, w: seq<nat>, rs: seq<nat>, l: nat)
    requires g.WellFormed() && Canonical(g, A) && NullCircle(g, A, w)
  {
    && rs != [] && 0 < l < |w| && (forall k :: 0 <= k < |rs| ==> 3 <= rs[k] < |g.rlhs|)
    && g.rrhs[rs[|rs| - 1]] in ItemsOf(g, A, w[l])
    && forall j, k :: 0 <= j < k < |rs| && k == j + 1 ==> HidesSome(g, rs[k], rs[j])
  }

  /** As many rules as one likes, each behind the next. */
  lemma {:induction false} Rises(g: Packed, A: Automaton, w: seq<nat>, k: nat, r: nat, n: nat)
    returns (rs: seq<nat>, l: nat)
    requires g.WellFormed() && Canonical(g, A) && NullCircle(g, A, w) && 0 < k < |w|
    requires 3 <= r < |g.rlhs| && g.rrhs[r] in ItemsOf(g, A, w[k])
    ensures |rs| == n + 1 && Rising(g, A, w, rs, l)
  {
    hide Canonical, Packed.WellFormed, NullCircle, HidesSome, ItemsOf;
    if n == 0 {
      rs, l := [r], k;
    } else {
      var front, j := Rises(g, A, w, k, r, n - 1);
      var q;
      l, q := HiddenAbove(g, A, w, j, front[n - 1]);
      rs := front + [q];
    }
  }

  lemma HidesReach(g: Packed, q: nat, r: nat)
    requires g.WellFormed() && HidesSome(g, q, r)
    ensures Reach(LeftRel(g), g.rlhs[q], g.rlhs[r])
  {
    hide Begins;
    var m: nat, D: nat :| Hides(g, q, m, g.rlhs[q], g.rlhs[r], D);
    assert LeftRel(g)(g.rlhs[q], D);
    ReachEdge(LeftRel(g), g.rlhs[q], D);
    ReachTrans(LeftRel(g), g.rlhs[q], D, g.rlhs[r]);
  }

  lemma {:induction false} RisesReach(g: Packed, A: Automaton, w: seq<nat>, rs: seq<nat>, l: nat, i: nat, j: nat)
    requires g.WellFormed() && Canonical(g, A) && NullCircle(g, A, w) && Rising(g, A, w, rs, l) && i <= j < |rs|
    ensures Reach(LeftRel(g), g.rlhs[rs[j]], g.rlhs[rs[i]])
    decreases j
  {
    hide Canonical, Packed.WellFormed, NullCircle, HidesSome, ItemsOf, LeftRel;
    if i == j {
      ReachRefl(LeftRel(g), g.rlhs[rs[i]]);
    } else {
      RisesReach(g, A, w, rs, l, i, j - 1);
      HidesReach(g, rs[j], rs[j - 1]);
      ReachTrans(LeftRel(g), g.rlhs[rs[j]], g.rlhs[rs[j - 1]], g.rlhs[rs[i]]);
    }
  }

  /** Such a circle shows hidden left recursion. */
  lemma NullCircleHides(g: Packed, A: Automaton, w: seq<nat>)
    requires g.WellFormed() && Canonical(g, A) && NullCircle(g, A, w)
    ensures HiddenLeft(g)
  {
    hide Canonical, ItemsOf, LeftRel, Begins, Reach;
    var k, r := StartOnCircle(g, A, w);
    var rs, l := Rises(g, A, w, k, r, g.nsyms);
    var cs := seq(|rs|, n requires 0 <= n < |rs| => g.rlhs[rs[n]]);
    var i, j := TwoEqual(cs, g.nsyms);
    assert HidesSome(g, rs[j], rs[j - 1]);
    var m: nat, D: nat :| Hides(g, rs[j], m, g.rlhs[rs[j]], g.rlhs[rs[j - 1]], D);
    RisesReach(g, A, w, rs, l, i, j - 1);
    ReachTrans(LeftRel(g), D, g.rlhs[rs[j - 1]], g.rlhs[rs[i]]);
    assert Behind(g, rs[j], m, g.rlhs[rs[j]], D);
  }

  /** Some rule starts on the circle. */
  lemma StartOnCircle(g: Packed, A: Automaton, w: seq<nat>) returns (k: nat, r: nat)
    requires g.WellFormed() && Canonical(g, A) && NullCircle(g, A, w)
    ensures 0 < k < |w| && 3 <= r < |g.rlhs| && g.rrhs[r] in ItemsOf(g, A, w[k])
  {
    hide Canonical, ItemsOf, Goto, Null;
    var q := w[|w| - 1];
    var i := KernelItem(g, A, q);
    var m;
    r, m := KernelRule(g, A, q, i);
    k := BackToStart(g, A, w, |w| - 1, i, r, m);
    if r == 2 {
      StartOnlyAtZero(g, A, w[k]);
    }
  }

  lemma KernelItem(g: Packed, A: Automaton, q: nat) returns (i: nat)
    requires Canonical(g, A) && 0 < q < |A.states|
    ensures i in A.states[q].items && i in ItemsOf(g, A, q)
  {
    assert KernelOK(g, A.states[q]);
    i := A.states[q].items[0];
    ClosureIsClosed(g, A.states[q].items);
  }

  /** States that circle, whatever alternatives are chosen, show a symbol of the grammar that derives
      itself alone or behind symbols that may be empty. */
  lemma CircleInGrammar(g: Packed, A: Automaton, T: Tables, p: nat, X: nat, q: nat, key: nat)
    requires TablesSound(g, A, T) && Shaped(T) && g.WellFormed() && Goto(A, p, X, q) && Circles(T, true, p, q, key)
    ensures Cyclic(g) || HiddenLeft(g)
  {
    hide TablesSound, Shaped, Packed.WellFormed, Goto, Reduces, UnitRel, Stands, IsStatePath, Chain;
    var c: seq<seq<nat>>, b: seq<nat> :| CirclesBy(T, true, p, q, key, c, b);
    var a := StandsFirst(g, A, T, p, X, q);
    StandsAlong(g, A, T, key, a, X, c, |c| - 1);
    if b != [] {
      CircleOfStates(g, A, T, a, p, X, q, b);
    }
  }

  lemma StandsFirst(g: Packed, A: Automaton, T: Tables, p: nat, X: nat, q: nat) returns (a: seq<nat>)
    requires TablesSound(g, A, T) && g.WellFormed() && Goto(A, p, X, q)
    ensures Stands(g, A, a, X, [p, q]) && q < |A.states| && A.states[q].accessing == X
  {
    hide UnitRel, Packed.WellFormed, StateSound;
    InRange(g, A, p, X, q);
    var s := PathTo(g, A, p);
    PathSnoc(A, s, X, q);
    a := s[..|s| - 1];
    assert s + [q] == a + [p, q];
    ReachRefl(UnitRel(g), X);
  }

  lemma InRange(g: Packed, A: Automaton, p: nat, X: nat, q: nat)
    requires Canonical(g, A) && Goto(A, p, X, q)
    ensures p < |A.states| && q < |A.states| && A.states[q].accessing == X
  {}

  /** A circle that has left states behind has gone through a circle of the automaton. */
  lemma CircleOfStates(g: Packed, A: Automaton, T: Tables, a: seq<nat>, p: nat, X: nat, q: nat, b: seq<nat>)
    requires TablesSound(g, A, T) && g.WellFormed() && b != [] && Stands(g, A, a, X, b + [p, q]) && b[0] == p
    requires q < |A.states| && A.states[q].accessing == X
    ensures HiddenLeft(g)
  {
    hide UnitRel, Packed.WellFormed, StateSound, Null, Goto, Canonical;
    var s := b + [p, q];
    assert SymbolAt(A, s, |b| + 1) == X;
    var u :| Joins(UnitRel(g), u, SymbolAt(A, s, 1), X);
    ReachNull(g, u, SymbolAt(A, s, 1), X);
    var w := b + [p];
    forall k | 0 < k < |w|
      ensures NullStep(g, A, w, k)
    {
      assert (a + s)[|a| + k - 1] == w[k - 1] && (a + s)[|a| + k] == w[k] == s[k];
      assert SymbolAt(A, w, k) == SymbolAt(A, s, k);
      GotoItems(g, A, w[k - 1], SymbolAt(A, w, k), w[k]);
    }
    assert w[|w| - 1] == p == w[0];
    forall k | 0 <= k < |w|
      ensures 0 < w[k] < |A.states|
    {
      assert NullStep(g, A, w, if k == 0 then |w| - 1 else k);
    }
    NullCircleHides(g, A, w);
  }

  /** Without such symbols nothing circles, and so every search comes to an end. */
  lemma NothingCircles(g: Packed, A: Automaton, T: Tables)
    requires TablesSound(g, A, T) && Shaped(T) && g.WellFormed() && !Cyclic(g) && !HiddenLeft(g)
    ensures NoCircles(A, T, true)
  {
    hide TablesSound, Shaped, Packed.WellFormed, Circles, Goto;
    forall p: nat, q: nat, X: nat, key: nat | Goto(A, p, X, q)
      ensures !Circles(T, true, p, q, key)
    {
      if Circles(T, true, p, q, key) {
        CircleInGrammar(g, A, T, p, X, q, key);
      }
    }
  }
}

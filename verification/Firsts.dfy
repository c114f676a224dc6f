/** Symbols that may be empty, and what a symbol or a string of symbols may start with, said of the
    grammar alone. */
module Firsts {
  import opened Reachability
  import opened Grammar
  import opened Nullable

  ghost predicate Null(g: Packed, X: nat)
    requires g.WellFormed()
  {
    DerivesEmpty(g.ToCfg(), X)
  }

  ghost predicate NullAll(g: Packed, Xs: seq<nat>)
    requires g.WellFormed()
  {
    forall k :: 0 <= k < |Xs| ==> Null(g, Xs[k])
  }

  /** Rule r rewrites B, and C stands at place m of it after symbols that may be empty. */
  ghost predicate Begins(g: Packed, r: nat, m: nat, B: nat, C: nat)
    requires g.WellFormed()
  {
    3 <= r < |g.rlhs| && g.rlhs[r] == B && m < |g.Rhs(r)| && g.Rhs(r)[m] == C && NullAll(g, g.Rhs(r)[..m])
  }

  /** B derives a string that starts with C, but for symbols that may be empty. */
  ghost function LeftRel(g: Packed): Rel
    requires g.WellFormed()
  {
    (B: nat, C: nat) => exists r: nat, m: nat :: Begins(g, r, m, B, C)
  }

  lemma RuleNull(g: Packed, r: nat)
    requires g.WellFormed() && 2 <= r < |g.rlhs| && NullAll(g, g.Rhs(r))
    ensures Null(g, g.rlhs[r])
  {
    var ts := EmptyTrees(g.ToCfg(), g.Rhs(r));
    EmptyNode(g.ToCfg(), r - 2, ts);
  }

  /** Xs derives a string that starts with t, but for symbols that may be empty. */
  ghost predicate StartsAt(g: Packed, Xs: seq<nat>, k: nat, t: nat)
    requires g.WellFormed()
  {
    k < |Xs| && NullAll(g, Xs[..k]) && Reach(LeftRel(g), Xs[k], t)
  }

  ghost predicate BeginsWith(g: Packed, Xs: seq<nat>, t: nat)
    requires g.WellFormed()
  {
    exists k: nat :: StartsAt(g, Xs, k, t)
  }

  lemma StartsOfSum(g: Packed, Xs: seq<nat>, Ys: seq<nat>, t: nat)
    requires g.WellFormed()
    ensures BeginsWith(g, Xs + Ys, t) <==> BeginsWith(g, Xs, t) || (NullAll(g, Xs) && BeginsWith(g, Ys, t))
  {
    hide Null, LeftRel, Packed.WellFormed;
    var Zs := Xs + Ys;
    if k: nat :| StartsAt(g, Zs, k, t) {
      if k < |Xs| {
        assert Zs[..k] == Xs[..k];
        assert StartsAt(g, Xs, k, t);
      } else {
        assert Zs[..k] == Xs + Ys[..k - |Xs|];
        PartsNull(g, Xs, Ys[..k - |Xs|]);
        assert StartsAt(g, Ys, k - |Xs|, t);
      }
    }
    if k: nat :| StartsAt(g, Xs, k, t) {
      assert Zs[..k] == Xs[..k];
      assert StartsAt(g, Zs, k, t);
    }
    if NullAll(g, Xs) && BeginsWith(g, Ys, t) {
      var k: nat :| StartsAt(g, Ys, k, t);
      assert Zs[..|Xs| + k] == Xs + Ys[..k];
      PartsNull(g, Xs, Ys[..k]);
      assert StartsAt(g, Zs, |Xs| + k, t);
    }
  }

  lemma PartsNull(g: Packed, Xs: seq<nat>, Ys: seq<nat>)
    requires g.WellFormed()
    ensures NullAll(g, Xs + Ys) <==> NullAll(g, Xs) && NullAll(g, Ys)
  {
    hide Null, Packed.WellFormed;
    if NullAll(g, Xs + Ys) {
      forall k | 0 <= k < |Ys|
        ensures Null(g, Ys[k])
      {
        assert (Xs + Ys)[|Xs| + k] == Ys[k];
      }
      forall k | 0 <= k < |Xs|
        ensures Null(g, Xs[k])
      {
        assert (Xs + Ys)[k] == Xs[k];
      }
    }
  }

  /** What the right-hand side of a rule starts with its left-hand side starts with. */
  lemma StartsOfRule(g: Packed, r: nat, t: nat)
    requires g.WellFormed() && 3 <= r < |g.rlhs| && BeginsWith(g, g.Rhs(r), t)
    ensures Reach(LeftRel(g), g.rlhs[r], t)
  {
    hide Null, Packed.WellFormed;
    var m: nat :| StartsAt(g, g.Rhs(r), m, t);
    var C := g.Rhs(r)[m];
    assert Begins(g, r, m, g.rlhs[r], C);
    ReachEdge(LeftRel(g), g.rlhs[r], C);
    ReachTrans(LeftRel(g), g.rlhs[r], C, t);
  }

  lemma StartsOfOne(g: Packed, X: nat, Xs: seq<nat>, t: nat)
    requires g.WellFormed() && Reach(LeftRel(g), X, t)
    ensures BeginsWith(g, [X] + Xs, t)
  {
    assert StartsAt(g, [X] + Xs, 0, t);
  }
}

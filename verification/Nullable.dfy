/** lr0.c, set_nullable: the symbols that derive the empty string, as a fixpoint over the items. */
module Nullable {
  import opened Grammar

  ghost predicate AllNull(g: Packed, nullable: seq<bool>, r: nat, n: nat)
    requires g.WellFormed() && 2 <= r < |g.rlhs| && n <= |g.Rhs(r)| && |nullable| == g.nsyms
  {
    forall k :: 0 <= k < n ==> g.Rhs(r)[k] < g.nsyms && nullable[g.Rhs(r)[k]]
  }

  /** Rule r adds nothing: if its whole right-hand side is marked, so is its left-hand side. */
  ghost predicate RuleClosed(g: Packed, nullable: seq<bool>, r: nat)
    requires g.WellFormed() && 2 <= r < |g.rlhs| && |nullable| == g.nsyms
  {
    AllNull(g, nullable, r, |g.Rhs(r)|) ==> nullable[g.rlhs[r]]
  }

  ghost predicate Sound(g: Packed, nullable: seq<bool>)
    requires g.WellFormed()
  {
    forall s: nat :: s < |nullable| && nullable[s] ==> DerivesEmpty(g.ToCfg(), s)
  }

  ghost function Unmarked(nullable: seq<bool>): set<nat> {
    set s: nat | s < |nullable| && !nullable[s]
  }

  /** A rule whose right-hand side is marked gives its left-hand side an empty parse tree. */
  lemma EmptyRule(g: Packed, nullable: seq<bool>, r: nat)
    requires g.WellFormed() && 2 <= r < |g.rlhs| && |nullable| == g.nsyms
    requires Sound(g, nullable) && AllNull(g, nullable, r, |g.Rhs(r)|)
    ensures DerivesEmpty(g.ToCfg(), g.rlhs[r])
  {
    var G := g.ToCfg();
    assert G.productions[r - 2] == Production(g.rlhs[r], g.Rhs(r));
    assert forall k :: 0 <= k < |g.Rhs(r)| ==> DerivesEmpty(G, g.Rhs(r)[k]);
    hide Packed.WellFormed, Packed.ToCfg, Packed.Rhs, DerivesEmpty, Sound, AllNull;
    var ts := EmptyTrees(G, g.Rhs(r));
    EmptyNode(G, r - 2, ts);
  }

  lemma EmptyNode(G: Cfg, y: nat, ts: seq<Tree>)
    requires y < |G.productions| && ParsesAll(G, ts, G.productions[y].rhs) && forall k :: 0 <= k < |ts| ==>
        Yield(ts[k]) == []
    ensures DerivesEmpty(G, G.productions[y].lhs)
  {
    YieldAllEmpty(ts);
    var t := Node(y, ts);
    assert Parses(G, t, G.productions[y].lhs) && Yield(t) == [];
  }

  lemma {:induction false} EmptyTrees(G: Cfg, Xs: seq<nat>) returns (ts: seq<Tree>)
    requires forall k :: 0 <= k < |Xs| ==> DerivesEmpty(G, Xs[k])
    ensures ParsesAll(G, ts, Xs) && forall k :: 0 <= k < |ts| ==> Yield(ts[k]) == []
  {
    if Xs == [] {
      ts := [];
    } else {
      var t :| Parses(G, t, Xs[0]) && Yield(t) == [];
      var rest := EmptyTrees(G, Xs[1..]);
      ts := [t] + rest;
    }
  }

  /** Every symbol with an empty parse tree is in any marking all rules are closed under. */
  lemma {:induction false} EmptyTreeMarked(g: Packed, nullable: seq<bool>, t: Tree, X: nat)
    requires g.WellFormed() && |nullable| == g.nsyms
    requires forall r :: 2 <= r < |g.rlhs| ==> RuleClosed(g, nullable, r)
    requires Parses(g.ToCfg(), t, X) && Yield(t) == []
    ensures X < g.nsyms && nullable[X]
    decreases t
  {
    var r := t.rule + 2;
    YieldAllEmpty(t.children);
    forall k | 0 <= k < |g.Rhs(r)|
      ensures g.Rhs(r)[k] < g.nsyms && nullable[g.Rhs(r)[k]]
    {
      EmptyTreeMarked(g, nullable, t.children[k], g.Rhs(r)[k]);
    }
    assert RuleClosed(g, nullable, r);
  }

  lemma AllNullStep(g: Packed, nullable: seq<bool>, r: nat, i: nat)
    requires g.WellFormed() && 2 <= r < |g.rlhs| && |nullable| == g.nsyms
    requires InRule(g, i, r) && g.ritem[i] >= 0
    ensures g.ritem[i] < g.nsyms && i + 1 < g.rrhs[r + 1]
    ensures AllNull(g, nullable, r, i + 1 - g.rrhs[r]) <==>
        AllNull(g, nullable, r, i - g.rrhs[r]) && nullable[g.ritem[i]]
  {
    ItemAt(g, i, r);
  }

  lemma MarkSymbol(g: Packed, nullable: seq<bool>, s: nat)
    requires g.WellFormed() && s < |nullable| && !nullable[s]
    requires Sound(g, nullable) && DerivesEmpty(g.ToCfg(), s)
    ensures Sound(g, nullable[s := true]) && Unmarked(nullable[s := true]) < Unmarked(nullable)
  {
    assert Unmarked(nullable[s := true]) == Unmarked(nullable) - {s};
    assert s in Unmarked(nullable);
  }

  /** The inner loop of the sweep: on to the marker of the rule, noting an unmarked symbol. */
  method ScanRule(g: Packed, nullable: array<bool>, start: nat, ghost r: nat) returns (i: nat, empty: bool)
    requires g.WellFormed() && nullable.Length == g.nsyms && 2 <= r < |g.rlhs| && start == g.rrhs[r]
    ensures i < |g.ritem| && i + 1 == g.rrhs[r + 1] && g.ritem[i] + r == 0
    ensures empty <==> AllNull(g, nullable[..], r, |g.Rhs(r)|)
  {
    assert g.RuleShape(r);
    i := start;
    empty := true;
    var j := g.ritem[i];
    while j >= 0
      invariant InRule(g, i, r) && j == g.ritem[i]
      invariant empty <==> AllNull(g, nullable[..], r, i - g.rrhs[r])
      decreases g.rrhs[r + 1] - i
    {
      AllNullStep(g, nullable[..], r, i);
      if !nullable[j] {
        empty := false;
      }
      i := i + 1;
      j := g.ritem[i];
    }
    ItemAt(g, i, r);
  }

  /** Marking a symbol that is not marked yet. */
  method Mark(g: Packed, nullable: array<bool>, j: nat) returns (marked: bool)
    requires g.WellFormed() && nullable.Length == g.nsyms && Sound(g, nullable[..]) && j < g.nsyms &&
        DerivesEmpty(g.ToCfg(), j)
    modifies nullable
    ensures Sound(g, nullable[..]) && nullable[j]
    ensures if marked then Unmarked(nullable[..]) < Unmarked(old(nullable[..])) else nullable[..] == old(nullable[..])
  {
    hide Packed.WellFormed, Packed.ToCfg, Sound, Unmarked, DerivesEmpty;
    marked := !nullable[j];
    if marked {
      MarkSymbol(g, nullable[..], j);
      ghost var before := nullable[..];
      nullable[j] := true;
      assert nullable[..] == before[j := true];
    }
  }

  /** One rule of a sweep. */
  method SweepRule(g: Packed, nullable: array<bool>, start: nat, ghost r: nat) returns (i: nat, marked: bool)
    requires g.WellFormed() && nullable.Length == g.nsyms && Sound(g, nullable[..]) && 2 <= r < |g.rlhs| &&
        start == g.rrhs[r]
    modifies nullable
    ensures i + 1 == g.rrhs[r + 1] && Sound(g, nullable[..])
    ensures marked ==> Unmarked(nullable[..]) < Unmarked(old(nullable[..]))
    ensures !marked ==> nullable[..] == old(nullable[..]) && RuleClosed(g, nullable[..], r)
  {
    hide Sound, Unmarked, DerivesEmpty, AllNull;
    var empty;
    i, empty := ScanRule(g, nullable, start, r);
    marked := false;
    if empty {
      EmptyRule(g, nullable[..], r);
      marked := Mark(g, nullable, g.rlhs[-g.ritem[i]]);
    }
  }

  /** One sweep over the items; done reports that it marked nothing. */
  method Sweep(g: Packed, nullable: array<bool>) returns (done: bool)
    requires g.WellFormed() && nullable.Length == g.nsyms && Sound(g, nullable[..])
    modifies nullable
    ensures Sound(g, nullable[..])
    ensures done ==> nullable[..] == old(nullable[..]) && forall q :: 2 <= q < |g.rlhs| ==>
        RuleClosed(g, nullable[..], q)
    ensures !done ==> Unmarked(nullable[..]) < Unmarked(old(nullable[..]))
  {
    hide Sound, Unmarked, RuleClosed, Packed.RuleShape;
    done := true;
    var i := 1;
    ghost var r := 2;
    while i < |g.ritem|
      invariant 2 <= r <= |g.rlhs| && i == g.rrhs[r]
      invariant Sound(g, nullable[..])
      invariant done ==> nullable[..] == old(nullable[..]) && forall q :: 2 <= q < r ==> RuleClosed(g, nullable[..], q)
      invariant !done ==> Unmarked(nullable[..]) < Unmarked(old(nullable[..]))
      decreases |g.rlhs| - r
    {
      var marked;
      i, marked := SweepRule(g, nullable, i, r);
      if marked {
        done := false;
      }
      i := i + 1;
      r := r + 1;
    }
    RrhsAscends(g, r, |g.rlhs|);
  }

  /** Marks exactly the symbols that derive the empty string. */
  method SetNullable(g: Packed) returns (nullable: array<bool>)
    requires g.WellFormed()
    ensures fresh(nullable) && nullable.Length == g.nsyms
    ensures forall s: nat :: s < g.nsyms ==> (nullable[s] <==> DerivesEmpty(g.ToCfg(), s))
  {
    nullable := new bool[g.nsyms](_ => false);
    var done := false;
    while !done
      invariant Sound(g, nullable[..])
      invariant done ==> forall r :: 2 <= r < |g.rlhs| ==> RuleClosed(g, nullable[..], r)
      decreases Unmarked(nullable[..]), if done then 0 else 1
    {
      done := Sweep(g, nullable);
    }
    forall s: nat | s < g.nsyms && DerivesEmpty(g.ToCfg(), s)
      ensures nullable[s]
    {
      var t :| Parses(g.ToCfg(), t, s) && Yield(t) == [];
      EmptyTreeMarked(g, nullable[..], t, s);
    }
  }
}

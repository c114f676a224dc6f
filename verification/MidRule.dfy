/** What inserting an empty rule for a mid-rule action does to a grammar: nothing, as far as its
    language is concerned. */
module MidRule {
  import opened Grammar

  /** G' is G with the fresh symbol M put in at place k of production i, and the empty production
      of M put in before it. */
  ghost predicate Inserted(G: Cfg, G': Cfg, i: nat, k: nat, M: nat) {
    && i < |G.productions| && k <= |G.productions[i].rhs| && G'.codes == G.codes && M !in G.codes
    && (forall p :: p in G.productions ==> p.lhs != M && M !in p.rhs)
    && G'.productions == G.productions[..i] + [Production(M, [])] + [Widened(G.productions[i], k, M)] +
        G.productions[i + 1..]
  }

  function Widened(p: Production, k: nat, M: nat): Production
    requires k <= |p.rhs|
  {
    Production(p.lhs, p.rhs[..k] + [M] + p.rhs[k..])
  }

  /** The number in G' of production r of G. */
  function Renumbered(r: nat, i: nat): nat {
    if r < i then r else r + 1
  }

  lemma ProductionsOf(G: Cfg, G': Cfg, i: nat, k: nat, M: nat)
    requires Inserted(G, G', i, k, M)
    ensures |G'.productions| == |G.productions| + 1 && G'.productions[i] == Production(M, [])
    ensures G'.productions[i + 1] == Widened(G.productions[i], k, M)
    ensures forall r :: 0 <= r < |G.productions| && r != i ==> G'.productions[Renumbered(r, i)] == G.productions[r]
  {}

  /** A tree of G as a tree of G': an empty child where production i is used. */
  ghost function Add(t: Tree, i: nat, k: nat): Tree {
    match t
    case Leaf(_) => t
    case Node(r, cs) =>
      var ds := seq(|cs|, j requires 0 <= j < |cs| => Add(cs[j], i, k));
      Node(Renumbered(r, i), if r == i && k <= |ds| then ds[..k] + [Node(i, [])] + ds[k..] else ds)
  }

  /** A tree of G' as a tree of G: that child taken out again. */
  ghost function Remove(t: Tree, i: nat, k: nat): Tree {
    match t
    case Leaf(_) => t
    case Node(r, cs) =>
      var ds := seq(|cs|, j requires 0 <= j < |cs| => Remove(cs[j], i, k));
      Node(if r <= i then r else r - 1, if r == i + 1 && k < |ds| then Without(ds, k) else ds)
  }

  lemma {:induction false} SameYields(a: seq<Tree>, b: seq<Tree>)
    requires |a| == |b| && forall j :: 0 <= j < |a| ==> Yield(a[j]) == Yield(b[j])
    ensures YieldAll(a) == YieldAll(b)
    decreases |a|
  {
    if a != [] {
      SameYields(a[..|a| - 1], b[..|b| - 1]);
    }
  }

  /** A child without tokens adds nothing. */
  lemma EmptyChild(a: seq<Tree>, k: nat, t: Tree)
    requires k <= |a| && Yield(t) == []
    ensures YieldAll(a[..k] + [t] + a[k..]) == YieldAll(a)
  {
    hide Yield, YieldAll;
    YieldAllConcat(a[..k] + [t], a[k..]);
    YieldAllConcat(a[..k], [t]);
    YieldAllOne(t);
    YieldAllConcat(a[..k], a[k..]);
    assert a[..k] + a[k..] == a;
  }

  lemma {:induction false} AddParses(G: Cfg, G': Cfg, i: nat, k: nat, M: nat, t: Tree, X: nat)
    requires Inserted(G, G', i, k, M) && Parses(G, t, X)
    ensures Parses(G', Add(t, i, k), X) && Yield(Add(t, i, k)) == Yield(t)
    decreases t
  {
    match t
    case Leaf(_) =>
    case Node(r, cs) =>
      ProductionsOf(G, G', i, k, M);
      var ds := seq(|cs|, j requires 0 <= j < |cs| => Add(cs[j], i, k));
      forall j | 0 <= j < |cs|
        ensures Parses(G', ds[j], G.productions[r].rhs[j]) && Yield(ds[j]) == Yield(cs[j])
      {
        AddParses(G, G', i, k, M, cs[j], G.productions[r].rhs[j]);
      }
      SameYields(ds, cs);
      if r == i {
        AddWide(G, G', i, k, M, ds);
      }
  }

  lemma AddWide(G: Cfg, G': Cfg, i: nat, k: nat, M: nat, ds: seq<Tree>)
    requires Inserted(G, G', i, k, M) && ParsesAll(G', ds, G.productions[i].rhs)
    ensures ParsesAll(G', ds[..k] + [Node(i, [])] + ds[k..], Widened(G.productions[i], k, M).rhs)
    ensures YieldAll(ds[..k] + [Node(i, [])] + ds[k..]) == YieldAll(ds)
  {
    var empty: Tree := Node(i, []);
    ProductionsOf(G, G', i, k, M);
    assert Parses(G', empty, M) && Yield(empty) == [];
    EmptyChild(ds, k, empty);
    hide Parses, Inserted;
    var es, wide := ds[..k] + [empty] + ds[k..], Widened(G.productions[i], k, M).rhs;
    forall j | 0 <= j < |es|
      ensures Parses(G', es[j], wide[j])
    {
      if j > k {
        assert es[j] == ds[j - 1] && wide[j] == G.productions[i].rhs[j - 1];
      }
    }
  }

  lemma OtherLhs(G: Cfg, G': Cfg, i: nat, k: nat, M: nat, r: nat)
    requires Inserted(G, G', i, k, M) && r < |G'.productions| && r != i
    ensures G'.productions[r].lhs != M
  {
    ProductionsOf(G, G', i, k, M);
    var s := if r < i then r else r - 1;
    assert G.productions[s] in G.productions;
    assert G'.productions[r].lhs == G.productions[s].lhs;
  }

  /** The inserted symbol has one tree, and it is empty. */
  lemma OnlyEmpty(G: Cfg, G': Cfg, i: nat, k: nat, M: nat, t: Tree)
    requires Inserted(G, G', i, k, M) && Parses(G', t, M)
    ensures Yield(t) == []
  {
    ProductionsOf(G, G', i, k, M);
    if t.rule != i {
      OtherLhs(G, G', i, k, M, t.rule);
    }
  }

  lemma {:induction false} RemoveParses(G: Cfg, G': Cfg, i: nat, k: nat, M: nat, t: Tree, X: nat)
    requires Inserted(G, G', i, k, M) && Parses(G', t, X) && X != M
    ensures Parses(G, Remove(t, i, k), X) && Yield(Remove(t, i, k)) == Yield(t)
    decreases t
  {
    match t
    case Leaf(_) =>
    case Node(r, cs) =>
      ProductionsOf(G, G', i, k, M);
      var s := if r <= i then r else r - 1;
      OtherIsOld(G, G', i, k, M, t, X);
      var ds := seq(|cs|, j requires 0 <= j < |cs| => Remove(cs[j], i, k));
      var rhs := G'.productions[r].rhs;
      forall j | 0 <= j < |cs| && rhs[j] != M
        ensures Parses(G, ds[j], rhs[j]) && Yield(ds[j]) == Yield(cs[j])
      {
        RemoveParses(G, G', i, k, M, cs[j], rhs[j]);
      }
      if r == i + 1 {
        RemoveWide(G, G', i, k, M, cs, ds);
      } else {
        SameYields(ds, cs);
      }
  }

  /** A production used for an old symbol is an old one, or the widened one. */
  lemma OtherIsOld(G: Cfg, G': Cfg, i: nat, k: nat, M: nat, t: Tree, X: nat)
    requires Inserted(G, G', i, k, M) && Parses(G', t, X) && X != M && t.Node?
    ensures var r := t.rule; var s := if r <= i then r else r - 1;
            && r != i && s < |G.productions| && G.productions[s].lhs == X && M !in G.productions[s].rhs
            && (r != i + 1 ==> G.productions[s] == G'.productions[r])
  {
    ProductionsOf(G, G', i, k, M);
    var r := t.rule;
    var s := if r <= i then r else r - 1;
    assert G.productions[s] in G.productions;
    assert r != i + 1 ==> Renumbered(s, i) == r;
  }

  /** s without its element k. */
  function Without<T>(s: seq<T>, k: nat): (r: seq<T>)
    requires k < |s|
    ensures |r| == |s| - 1 && forall j :: 0 <= j < |r| ==> r[j] == s[if j < k then j else j + 1]
  {
    s[..k] + s[k + 1..]
  }

  lemma DroppedChild(a: seq<Tree>, k: nat)
    requires k < |a| && Yield(a[k]) == []
    ensures YieldAll(Without(a, k)) == YieldAll(a)
  {
    hide Yield, YieldAll;
    EmptyChild(Without(a, k), k, a[k]);
    assert Without(a, k)[..k] + [a[k]] + Without(a, k)[k..] == a;
  }

  /** The children kept, with their symbols. */
  lemma KeptChildren(G: Cfg, p: Production, k: nat, M: nat, cs: seq<Tree>, ds: seq<Tree>)
    requires k <= |p.rhs| && M !in p.rhs && |cs| == |ds| == |p.rhs| + 1
    requires forall j :: 0 <= j < |cs| && Widened(p, k, M).rhs[j] != M ==>
               Parses(G, ds[j], Widened(p, k, M).rhs[j]) && Yield(ds[j]) == Yield(cs[j])
    ensures ParsesAll(G, Without(ds, k), p.rhs)
    ensures YieldAll(Without(ds, k)) == YieldAll(Without(cs, k))
  {
    hide Parses, Yield, YieldAll;
    var wide := Widened(p, k, M).rhs;
    assert Without(wide, k) == p.rhs;
    forall j | 0 <= j < |p.rhs|
      ensures Parses(G, Without(ds, k)[j], p.rhs[j]) && Yield(Without(ds, k)[j]) == Yield(Without(cs, k)[j])
    {
      var l := if j < k then j else j + 1;
      assert Without(wide, k)[j] == wide[l] && p.rhs[j] in p.rhs;
    }
    SameYields(Without(ds, k), Without(cs, k));
  }

  lemma RemoveWide(G: Cfg, G': Cfg, i: nat, k: nat, M: nat, cs: seq<Tree>, ds: seq<Tree>)
    requires Inserted(G, G', i, k, M) && ParsesAll(G', cs, Widened(G.productions[i], k, M).rhs) && |ds| == |cs|
    requires forall j :: 0 <= j < |cs| && Widened(G.productions[i], k, M).rhs[j] != M ==>
               Parses(G, ds[j], Widened(G.productions[i], k, M).rhs[j]) && Yield(ds[j]) == Yield(cs[j])
    ensures k < |ds| && ParsesAll(G, Without(ds, k), G.productions[i].rhs)
    ensures YieldAll(Without(ds, k)) == YieldAll(cs)
  {
    var p := G.productions[i];
    assert p in G.productions && M !in p.rhs && Widened(p, k, M).rhs[k] == M;
    OnlyEmpty(G, G', i, k, M, cs[k]);
    hide Parses, Yield, YieldAll, Inserted;
    KeptChildren(G, p, k, M, cs, ds);
    DroppedChild(cs, k);
  }

  /** Inserting an empty rule for a mid-rule action leaves every other symbol's language alone. */
  lemma SameLanguage(G: Cfg, G': Cfg, i: nat, k: nat, M: nat, X: nat, w: seq<Lexeme>)
    requires Inserted(G, G', i, k, M) && X != M
    ensures Derives(G, X, w) <==> Derives(G', X, w)
  {
    if Derives(G, X, w) {
      var t :| Parses(G, t, X) && Yield(t) == w;
      AddParses(G, G', i, k, M, t, X);
    }
    if Derives(G', X, w) {
      var t :| Parses(G', t, X) && Yield(t) == w;
      RemoveParses(G, G', i, k, M, t, X);
    }
  }

  /** Where an empty rule was inserted: production, place in it, and the fresh symbol. */
  datatype Mark = Mark(i: nat, k: nat, M: nat)

  /** Q is P after one insertion. */
  ghost predicate StepAt(P: seq<Production>, Q: seq<Production>, m: Mark) {
    && m.i < |P| && m.k <= |P[m.i].rhs| && (forall p :: p in P ==> p.lhs != m.M && m.M !in p.rhs)
    && Q == P[..m.i] + [Production(m.M, [])] + [Widened(P[m.i], m.k, m.M)] + P[m.i + 1..]
  }

  /** A grammar as written, and what it became with each insertion. */
  ghost predicate Chain(steps: seq<seq<Production>>, marks: seq<Mark>) {
    |steps| == |marks| + 1 && forall j, l :: 0 <= j < l < |steps| && l == j + 1 ==> StepAt(steps[j], steps[l], marks[j])
  }

  /** The last production goes on with x. */
  function WithSymbol(P: seq<Production>, x: nat): seq<Production>
    requires P != []
  {
    P[|P| - 1 := Production(P[|P| - 1].lhs, P[|P| - 1].rhs + [x])]
  }

  lemma StepWithSymbol(P: seq<Production>, Q: seq<Production>, m: Mark, x: nat)
    requires StepAt(P, Q, m) && x != m.M && P != []
    ensures Q != [] && StepAt(WithSymbol(P, x), WithSymbol(Q, x), m)
  {
    var n := |P| - 1;
    var P', Q' := WithSymbol(P, x), WithSymbol(Q, x);
    forall p | p in P'
      ensures p.lhs != m.M && m.M !in p.rhs
    {
      var j :| 0 <= j < |P'| && P'[j] == p;
      assert P[j] in P;
    }
    if m.i == n {
      assert P'[n].rhs[..m.k] == P[n].rhs[..m.k] && P'[n].rhs[m.k..] == P[n].rhs[m.k..] + [x];
      assert Widened(P'[n], m.k, m.M).rhs == Widened(P[n], m.k, m.M).rhs + [x];
    }
    assert Q' == P'[..m.i] + [Production(m.M, [])] + [Widened(P'[m.i], m.k, m.M)] + P'[m.i + 1..];
  }

  lemma StepWithRule(P: seq<Production>, Q: seq<Production>, m: Mark, p: Production)
    requires StepAt(P, Q, m) && p.lhs != m.M && m.M !in p.rhs
    ensures StepAt(P + [p], Q + [p], m)
  {
    assert (P + [p])[..m.i] == P[..m.i] && (P + [p])[m.i + 1..] == P[m.i + 1..] + [p];
  }

  /** The grammar read generates, from every symbol written, what the grammar as written does. */
  lemma {:induction false} ChainSameLanguage(steps: seq<seq<Production>>, marks: seq<Mark>, codes: map<nat, int>,
                                             X: nat, w: seq<Lexeme>)
    requires Chain(steps, marks) && forall m :: m in marks ==> m.M !in codes && X != m.M
    ensures Derives(Cfg(steps[0], codes), X, w) <==> Derives(Cfg(steps[|steps| - 1], codes), X, w)
    decreases |marks|
  {
    if marks != [] {
      var n := |marks| - 1;
      ChainSameLanguage(steps[..n + 1], marks[..n], codes, X, w);
      assert marks[n] in marks && StepAt(steps[n], steps[n + 1], marks[n]);
      SameLanguage(Cfg(steps[n], codes), Cfg(steps[n + 1], codes), marks[n].i, marks[n].k, marks[n].M, X, w);
    }
  }
}

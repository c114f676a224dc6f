/** Context-free grammars, their parse trees, and the packed encoding shared by all stages. */
module Grammar {

  /** A token as the lexer delivers it: its external number and its semantic value. */
  datatype Lexeme = Lexeme(code: int, value: int)

  datatype Production = Production(lhs: nat, rhs: seq<nat>)

  /** Productions, and the external number of every terminal symbol. */
  datatype Cfg = Cfg(productions: seq<Production>, codes: map<nat, int>)

  datatype Tree = Leaf(lexeme: Lexeme) | Node(rule: nat, children: seq<Tree>)

  /** t is a parse tree for symbol X. */
  ghost predicate Parses(G: Cfg, t: Tree, X: nat) {
    match t
    case Leaf(l) => X in G.codes && G.codes[X] == l.code
    case Node(r, cs) =>
      && r < |G.productions|
      && G.productions[r].lhs == X
      && |cs| == |G.productions[r].rhs|
      && forall k :: 0 <= k < |cs| ==> Parses(G, cs[k], G.productions[r].rhs[k])
  }

  ghost predicate ParsesAll(G: Cfg, ts: seq<Tree>, Xs: seq<nat>) {
    |ts| == |Xs| && forall k :: 0 <= k < |ts| ==> Parses(G, ts[k], Xs[k])
  }

  /** The lexemes at the leaves, left to right. */
  ghost function Yield(t: Tree): seq<Lexeme>
    decreases t, 1
  {
    match t
    case Leaf(l) => [l]
    case Node(_, cs) => YieldAll(cs)
  }

  ghost function YieldAll(ts: seq<Tree>): seq<Lexeme>
    decreases ts, 0
  {
    if ts == [] then [] else YieldAll(ts[..|ts| - 1]) + Yield(ts[|ts| - 1])
  }

  lemma {:induction false} YieldAllConcat(a: seq<Tree>, b: seq<Tree>)
    ensures YieldAll(a + b) == YieldAll(a) + YieldAll(b)
    decreases |b|
  {
    if b == [] {
      assert a + b == a;
    } else {
      var n := |b| - 1;
      assert (a + b)[..|a + b| - 1] == a + b[..n];
      YieldAllConcat(a, b[..n]);
    }
  }

  lemma YieldAllOne(t: Tree)
    ensures YieldAll([t]) == Yield(t)
  {
    assert [t][..0] == [];
  }

  lemma {:induction false} YieldAllEmpty(ts: seq<Tree>)
    ensures YieldAll(ts) == [] <==> forall k :: 0 <= k < |ts| ==> Yield(ts[k]) == []
    decreases |ts|
  {
    if ts != [] {
      YieldAllEmpty(ts[..|ts| - 1]);
    }
  }

  /** The token strings derivable from a symbol. */
  ghost predicate Derives(G: Cfg, X: nat, w: seq<Lexeme>) {
    exists t :: Parses(G, t, X) && Yield(t) == w
  }

  ghost predicate DerivesEmpty(G: Cfg, X: nat) {
    Derives(G, X, [])
  }

  /** The encoding laid down by pack_grammar: rule r >= 2 occupies the items from rrhs[r] on,
      closed by the marker -r; rules 0 and 1 are unused, rule 2 is the start rule. */
  datatype Packed = Packed(ritem: seq<int>, rlhs: seq<nat>, rrhs: seq<nat>, ntokens: nat, nsyms: nat, value: seq<int>) {

    /** ISVAR: tokens come first, then the start symbol, then the other nonterminals. */
    predicate IsVar(s: int) {
      s >= ntokens
    }

    ghost predicate RuleShape(r: nat)
      requires 2 <= r < |rlhs| && |rrhs| == |rlhs| + 1
    {
      && rrhs[r] < rrhs[r + 1] <= |ritem|
      && ritem[rrhs[r + 1] - 1] + r == 0
      && forall i :: rrhs[r] <= i < rrhs[r + 1] - 1 ==> 0 <= ritem[i] < nsyms && ritem[i] != ntokens
    }

    ghost predicate WellFormed() {
      && 1 <= ntokens && ntokens + 2 <= nsyms && |value| == nsyms
      && |rlhs| >= 3 && |rrhs| == |rlhs| + 1
      && rlhs[0] == rlhs[1] == 0 && rlhs[2] == ntokens
      && rrhs[0] == rrhs[1] == 0 && rrhs[2] == 1 && rrhs[3] == 4 <= |ritem| && rrhs[|rlhs|] == |ritem|
      && ritem[0] == -1 && ritem[1] == ntokens + 1 && ritem[2] == 0
      && (forall r :: 2 <= r < |rlhs| ==> RuleShape(r))
      && (forall r :: 3 <= r < |rlhs| ==> ntokens < rlhs[r] < nsyms)
      && (forall i :: 4 <= i < |ritem| ==> ritem[i] != 0)
    }

    /** No two tokens share an external number; value[0] is that of the end token. */
    ghost predicate DistinctCodes()
      requires WellFormed()
    {
      value[0] == 0 && forall s, t :: 0 <= s < t < ntokens ==> value[s] != value[t]
    }

    ghost function Rhs(r: nat): seq<nat>
      requires WellFormed() && 2 <= r < |rlhs|
    {
      assert RuleShape(r);
      seq(rrhs[r + 1] - 1 - rrhs[r], k requires 0 <= k < rrhs[r + 1] - 1 - rrhs[r] => ritem[rrhs[r] + k])
    }

    /** Rules numbered as the generated parser numbers them, from rule 2. */
    ghost function ToCfg(): Cfg
      requires WellFormed()
    {
      Cfg(seq(|rlhs| - 2, y requires 0 <= y < |rlhs| - 2 => Production(rlhs[y + 2], Rhs(y + 2))),
          map s: nat | s < ntokens :: value[s])
    }
  }

  lemma {:induction false} RrhsAscends(g: Packed, r: nat, q: nat)
    requires g.WellFormed() && 2 <= r <= q <= |g.rlhs|
    ensures g.rrhs[r] <= g.rrhs[q] && (r < q ==> g.rrhs[r] < g.rrhs[q])
    decreases q - r
  {
    if r < q {
      assert g.RuleShape(r);
      RrhsAscends(g, r + 1, q);
    }
  }

  /** The rule whose stretch of items holds i. */
  ghost predicate InRule(g: Packed, i: nat, r: nat) {
    2 <= r < |g.rlhs| && r + 1 < |g.rrhs| && g.rrhs[r] <= i < g.rrhs[r + 1] && i < |g.ritem|
  }

  lemma {:induction false} ItemHasRuleBelow(g: Packed, i: nat, q: nat) returns (r: nat)
    requires g.WellFormed() && 1 <= i && 2 <= q <= |g.rlhs| && i < g.rrhs[q]
    ensures InRule(g, i, r)
    decreases q
  {
    if g.rrhs[q - 1] <= i && q > 2 {
      r := q - 1;
      assert g.RuleShape(r);
    } else {
      r := ItemHasRuleBelow(g, i, q - 1);
    }
  }

  lemma ItemHasRule(g: Packed, i: nat) returns (r: nat)
    requires g.WellFormed() && 1 <= i < |g.ritem|
    ensures InRule(g, i, r)
  {
    r := ItemHasRuleBelow(g, i, |g.rlhs|);
  }

  lemma RuleIsUnique(g: Packed, i: nat, r: nat, q: nat)
    requires g.WellFormed() && InRule(g, i, r) && InRule(g, i, q)
    ensures r == q
  {
    if r < q {
      RrhsAscends(g, r + 1, q);
    } else if q < r {
      RrhsAscends(g, q + 1, r);
    }
  }

  /** An item is either before a symbol of its rule or at the closing marker. */
  lemma ItemAt(g: Packed, i: nat, r: nat)
    requires g.WellFormed() && InRule(g, i, r)
    ensures g.ritem[i] >= 0 ==> i + 1 < g.rrhs[r + 1] && g.ritem[i] == g.Rhs(r)[i - g.rrhs[r]]
    ensures g.ritem[i] < 0 ==> i + 1 == g.rrhs[r + 1] && g.ritem[i] + r == 0
    ensures g.ritem[i] >= 0 ==> g.ritem[i] < g.nsyms && g.ritem[i] != g.ntokens
  {
    assert g.RuleShape(r);
  }
}

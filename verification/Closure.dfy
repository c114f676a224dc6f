/** closure.c (with set_derives of lr0.c): the closure of an item set by one precomputed bit
    row per nonterminal, merged with the sorted kernel. */
module Closure {
  import opened Reachability
  import opened BitRows
  import opened Grammar
  import opened Warshall

  ghost predicate Ascending(s: seq<nat>) {
    forall p, q :: 0 <= p < q < |s| ==> s[p] < s[q]
  }

  /** s lists the set S in ascending order. */
  ghost predicate Lists(s: seq<nat>, S: iset<nat>) {
    Ascending(s) && forall x: nat :: x in s <==> x in S
  }

  lemma {:induction false} ListsUnique(s: seq<nat>, t: seq<nat>, S: iset<nat>)
    requires Lists(s, S) && Lists(t, S)
    ensures s == t
    decreases |s|
  {
    BothEmpty(s, t, S);
    if s != [] {
      var m, n := |s| - 1, |t| - 1;
      assert s[m] in t && t[n] in s;
      assert s[m] == t[n];
      var S' := iset x: nat | x in S && x != s[m];
      DropLast(s, S, S');
      DropLast(t, S, S');
      ListsUnique(s[..m], t[..n], S');
      assert s == s[..m] + [s[m]] && t == t[..n] + [t[n]];
    }
  }

  lemma BothEmpty(s: seq<nat>, t: seq<nat>, S: iset<nat>)
    requires Lists(s, S) && Lists(t, S)
    ensures s == [] <==> t == []
  {
    if s != [] {
      assert s[0] in t;
    }
    if t != [] {
      assert t[0] in s;
    }
  }

  lemma DropLast(s: seq<nat>, S: iset<nat>, S': iset<nat>)
    requires s != [] && Lists(s, S) && S' == iset x: nat | x in S && x != s[|s| - 1]
    ensures Lists(s[..|s| - 1], S')
  {
    var n := |s| - 1;
    assert s == s[..n] + [s[n]];
  }

  /** From an item before a nonterminal, each production of that nonterminal is predicted. */
  ghost function ItemRel(g: Packed): Rel {
    (i: nat, j: nat) => i < |g.ritem| && g.IsVar(g.ritem[i]) && Predicted(g, g.ritem[i], j)
  }

  ghost predicate Predicted(g: Packed, A: int, j: nat) {
    exists r: nat :: 2 <= r < |g.rlhs| && r < |g.rrhs| && g.rlhs[r] == A && g.rrhs[r] == j
  }

  /** The least set of items that holds the kernel and everything its members predict. */
  ghost function ClosureOf(g: Packed, kernel: seq<nat>): iset<nat> {
    iset i: nat | InClosure(g, kernel, i)
  }

  ghost predicate InClosure(g: Packed, kernel: seq<nat>, i: nat) {
    exists k :: k in kernel && Reach(ItemRel(g), k, i)
  }

  lemma ClosureIsLeast(g: Packed, kernel: seq<nat>, S: iset<nat>)
    requires forall k :: k in kernel ==> k in S
    requires ClosedUnder(ItemRel(g), S)
    ensures ClosureOf(g, kernel) <= S
  {
    forall i: nat | i in ClosureOf(g, kernel)
      ensures i in S
    {
      var k :| k in kernel && Reach(ItemRel(g), k, i);
      ClosedKeepsReach(ItemRel(g), S, k, i);
    }
  }

  lemma ClosureIsClosed(g: Packed, kernel: seq<nat>)
    ensures ClosedUnder(ItemRel(g), ClosureOf(g, kernel))
    ensures forall k :: k in kernel ==> k in ClosureOf(g, kernel)
  {
    forall i: nat, j: nat | i in ClosureOf(g, kernel) && ItemRel(g)(i, j)
      ensures j in ClosureOf(g, kernel)
    {
      var k :| k in kernel && Reach(ItemRel(g), k, i);
      ReachSnoc(ItemRel(g), k, i, j);
    }
    forall k | k in kernel
      ensures k in ClosureOf(g, kernel)
    {
      ReachRefl(ItemRel(g), k);
    }
  }

  /** Nonterminals are numbered from the start symbol; b can begin a right-hand side of a. */
  ghost function CornerRel(g: Packed): Rel {
    (a: nat, b: nat) => Corner(g, a, b)
  }

  ghost predicate Corner(g: Packed, a: nat, b: nat) {
    exists r: nat :: 2 <= r < |g.rlhs| && StartsWith(g, r, a, b)
  }

  ghost predicate StartsWith(g: Packed, r: nat, a: nat, b: nat)
    requires r < |g.rlhs|
  {
    r < |g.rrhs| && g.rrhs[r] < |g.ritem| && g.rlhs[r] == a + g.ntokens && g.ritem[g.rrhs[r]] == b + g.ntokens
  }

  /** The rules predicted, directly or through left corners, by nonterminal a. */
  ghost predicate FirstDerives(g: Packed, a: nat, r: nat) {
    2 <= r < |g.rlhs| && g.rlhs[r] >= g.ntokens && Reach(CornerRel(g), a, g.rlhs[r] - g.ntokens)
  }

  /** x is the first item of a rule that a derives. */
  ghost predicate DerivedItem(g: Packed, a: nat, x: nat) {
    exists r: nat :: FirstDerives(g, a, r) && r < |g.rrhs| && g.rrhs[r] == x
  }

  ghost predicate AllPredicted(g: Packed, k: nat, b: nat)
    requires g.WellFormed()
  {
    forall q: nat :: 2 <= q < |g.rlhs| && g.rlhs[q] == b + g.ntokens ==> Reach(ItemRel(g), k, g.rrhs[q])
  }

  lemma PredictedByCorners(g: Packed, k: nat, i: nat)
    requires g.WellFormed() && k < |g.ritem| && g.IsVar(g.ritem[k])
    requires Reach(ItemRel(g), k, i)
    ensures i == k || DerivedItem(g, g.ritem[k] - g.ntokens, i)
  {
    var a := g.ritem[k] - g.ntokens;
    var S := iset x: nat | x == k || DerivedItem(g, a, x);
    forall x: nat, y: nat | x in S && ItemRel(g)(x, y)
      ensures y in S
    {
      var q: nat :| 2 <= q < |g.rlhs| && g.rlhs[q] == g.ritem[x] && g.rrhs[q] == y;
      var b := g.rlhs[q] - g.ntokens;
      if x == k {
        ReachRefl(CornerRel(g), a);
      } else {
        var r: nat :| FirstDerives(g, a, r) && r < |g.rrhs| && g.rrhs[r] == x;
        var c: nat := g.rlhs[r] - g.ntokens;
        assert StartsWith(g, r, c, b);
        ReachSnoc(CornerRel(g), a, c, b);
      }
      assert FirstDerives(g, a, q);
    }
    ClosedKeepsReach(ItemRel(g), S, k, i);
  }

  lemma CornersPredict(g: Packed, k: nat, r: nat)
    requires g.WellFormed() && k < |g.ritem| && g.IsVar(g.ritem[k])
    requires FirstDerives(g, g.ritem[k] - g.ntokens, r)
    ensures Reach(ItemRel(g), k, g.rrhs[r])
  {
    var a := g.ritem[k] - g.ntokens;
    var T := iset b: nat | AllPredicted(g, k, b);
    forall q: nat | 2 <= q < |g.rlhs| && g.rlhs[q] == a + g.ntokens
      ensures Reach(ItemRel(g), k, g.rrhs[q])
    {
      ReachEdge(ItemRel(g), k, g.rrhs[q]);
    }
    forall b: nat, c: nat | b in T && CornerRel(g)(b, c)
      ensures c in T
    {
      var p: nat :| 2 <= p < |g.rlhs| && StartsWith(g, p, b, c);
      forall q: nat | 2 <= q < |g.rlhs| && g.rlhs[q] == c + g.ntokens
        ensures Reach(ItemRel(g), k, g.rrhs[q])
      {
        assert Predicted(g, g.ritem[g.rrhs[p]], g.rrhs[q]);
        ReachSnoc(ItemRel(g), k, g.rrhs[p], g.rrhs[q]);
      }
    }
    ClosedKeepsReach(CornerRel(g), T, a, g.rlhs[r] - g.ntokens);
  }

  /** Rule r is predicted by some kernel item. */
  ghost predicate KernelDerives(g: Packed, kernel: seq<nat>, r: nat) {
    exists p: nat :: p < |kernel| && ItemDerives(g, kernel[p], r)
  }

  ghost predicate ItemDerives(g: Packed, k: nat, r: nat) {
    k < |g.ritem| && g.IsVar(g.ritem[k]) && FirstDerives(g, g.ritem[k] - g.ntokens, r)
  }

  /** The closure is the kernel and the first items of the rules it derives. */
  lemma ClosureByRules(g: Packed, kernel: seq<nat>, i: nat)
    requires g.WellFormed() && forall p :: 0 <= p < |kernel| ==> kernel[p] < |g.ritem|
    ensures i in ClosureOf(g, kernel) <==> i in kernel || exists r: nat :: KernelDerives(g, kernel, r) && g.rrhs[r] == i
  {
    if i in ClosureOf(g, kernel) && i !in kernel {
      var k :| k in kernel && Reach(ItemRel(g), k, i);
      var p: nat :| p < |kernel| && kernel[p] == k;
      if !g.IsVar(g.ritem[k]) {
        ClosedKeepsReach(ItemRel(g), iset{k}, k, i);
      }
      PredictedByCorners(g, k, i);
      var r: nat :| FirstDerives(g, g.ritem[k] - g.ntokens, r) && g.rrhs[r] == i;
      assert ItemDerives(g, kernel[p], r);
    }
    if r: nat :| KernelDerives(g, kernel, r) && g.rrhs[r] == i {
      var p: nat :| p < |kernel| && ItemDerives(g, kernel[p], r);
      CornersPredict(g, kernel[p], r);
    }
    ClosureIsClosed(g, kernel);
  }

  ghost function RulesOf(g: Packed, A: nat, n: nat): iset<nat> {
    iset r: nat | r < n && r < |g.rlhs| && g.rlhs[r] == A
  }

  lemma ListsAppend(s: seq<nat>, S: iset<nat>, x: nat)
    requires Lists(s, S) && forall y :: y in S ==> y < x
    ensures Lists(s + [x], S + iset{x})
  {
    forall p | 0 <= p < |s|
      ensures s[p] < x
    {
      assert s[p] in s;
    }
  }

  /** derives[A] lists the rules of A, in ascending order. */
  ghost predicate DerivesLists(g: Packed, derives: seq<seq<nat>>) {
    && |derives| == g.nsyms
    && forall A: nat :: g.ntokens <= A < g.nsyms ==> Lists(derives[A], RulesOf(g, A, |g.rlhs|))
  }

  /** set_derives: one scan of the rules per nonterminal. */
  method SetDerives(g: Packed) returns (derives: array<seq<nat>>)
    requires g.WellFormed()
    ensures fresh(derives) && DerivesLists(g, derives[..])
  {
    derives := new seq<nat>[g.nsyms](_ => []);
    var lhs := g.ntokens;
    while lhs < g.nsyms
      invariant g.ntokens <= lhs <= g.nsyms
      invariant forall A: nat :: g.ntokens <= A < lhs ==> Lists(derives[A], RulesOf(g, A, |g.rlhs|))
    {
      ghost var before := derives[..];
      var rules: seq<nat> := [];
      var i := 0;
      while i < |g.rlhs|
        invariant i <= |g.rlhs| && derives[..] == before
        invariant Lists(rules, RulesOf(g, lhs, i))
      {
        if g.rlhs[i] == lhs {
          ListsAppend(rules, RulesOf(g, lhs, i), i);
          assert RulesOf(g, lhs, i + 1) == RulesOf(g, lhs, i) + iset{i};
          rules := rules + [i];
        } else {
          assert RulesOf(g, lhs, i + 1) == RulesOf(g, lhs, i);
        }
        i := i + 1;
      }
      derives[lhs] := rules;
      lhs := lhs + 1;
    }
  }

  lemma RuleListed(g: Packed, derives: seq<seq<nat>>, A: nat, k: nat)
    requires g.WellFormed() && DerivesLists(g, derives) && g.ntokens <= A < g.nsyms && k < |derives[A]|
    ensures 2 <= derives[A][k] < |g.rlhs| && g.rlhs[derives[A][k]] == A && g.rrhs[derives[A][k]] < |g.ritem|
    ensures g.ritem[g.rrhs[derives[A][k]]] < g.nsyms
  {
    assert derives[A][k] in derives[A];
    RuleStart(g, derives[A][k]);
  }

  /** One of the first n listed rules of a starts with b. */
  ghost predicate CornerAmong(g: Packed, rules: seq<nat>, n: nat, a: nat, b: nat) {
    exists k: nat :: k < n && k < |rules| && rules[k] < |g.rlhs| && StartsWith(g, rules[k], a, b)
  }

  lemma CornerListed(g: Packed, derives: seq<seq<nat>>, a: nat, b: nat)
    requires g.WellFormed() && DerivesLists(g, derives) && a < g.nsyms - g.ntokens
    ensures Corner(g, a, b) <==> CornerAmong(g, derives[a + g.ntokens], |derives[a + g.ntokens]|, a, b)
  {
    var rules := derives[a + g.ntokens];
    if Corner(g, a, b) {
      var r: nat :| 2 <= r < |g.rlhs| && StartsWith(g, r, a, b);
      assert r in RulesOf(g, a + g.ntokens, |g.rlhs|);
      var k: nat :| k < |rules| && rules[k] == r;
    }
    if CornerAmong(g, rules, |rules|, a, b) {
      var k: nat :| k < |rules| && rules[k] < |g.rlhs| && StartsWith(g, rules[k], a, b);
      RuleListed(g, derives, a + g.ntokens, k);
    }
  }

  /** set_EFF: row a holds the nonterminals that can begin what a derives. */
  method SetEFF(g: Packed, derives: array<seq<nat>>) returns (EFF: array2<Word>)
    requires g.WellFormed() && DerivesLists(g, derives[..])
    ensures fresh(EFF) && EFF.Length0 == g.nsyms - g.ntokens && EFF.Length1 == WordSize(g.nsyms - g.ntokens)
    ensures forall a: nat, b: nat :: a < EFF.Length0 ==> (b in Rows(EFF)[a] <==> Reach(CornerRel(g), a, b))
  {
    var nvars := g.nsyms - g.ntokens;
    EFF := NewMatrix(nvars, nvars);
    var row := 0;
    while row < nvars
      invariant row <= nvars
      invariant forall a: nat, b: nat :: a < nvars ==> (b in Rows(EFF)[a] <==> a < row && Corner(g, a, b))
    {
      SetCorners(g, derives, EFF, row);
      row := row + 1;
    }
    ghost var E := Rows(EFF);
    ReflexiveTransitiveClosure(EFF, nvars);
    forall a: nat, b: nat | a < nvars
      ensures Reach(RowRel(E), a, b) <==> Reach(CornerRel(g), a, b)
    {
      SameReach(g, E, a, b);
    }
  }

  /** The inner loop of set_EFF: the direct left corners of one nonterminal. */
  method SetCorners(g: Packed, derives: array<seq<nat>>, EFF: array2<Word>, row: nat)
    requires g.WellFormed() && DerivesLists(g, derives[..]) && row < EFF.Length0 == g.nsyms - g.ntokens
    requires EFF.Length1 == WordSize(g.nsyms - g.ntokens) && Rows(EFF)[row] == {}
    modifies EFF
    ensures forall a: nat :: a < EFF.Length0 && a != row ==> Rows(EFF)[a] == old(Rows(EFF)[a])
    ensures forall b: nat :: b in Rows(EFF)[row] <==> Corner(g, row, b)
  {
    var rules := derives[row + g.ntokens];
    var sp := 0;
    while sp < |rules|
      invariant sp <= |rules|
      invariant forall a: nat :: a < EFF.Length0 && a != row ==> Rows(EFF)[a] == old(Rows(EFF)[a])
      invariant forall b: nat :: b in Rows(EFF)[row] <==> CornerAmong(g, rules, sp, row, b)
    {
      RuleListed(g, old(derives[..]), row + g.ntokens, sp);
      var symbol := g.ritem[g.rrhs[rules[sp]]];
      if g.IsVar(symbol) {
        SetBit(EFF, row, symbol - g.ntokens);
      }
      sp := sp + 1;
    }
    forall b: nat
      ensures b in Rows(EFF)[row] <==> Corner(g, row, b)
    {
      CornerListed(g, old(derives[..]), row, b);
    }
  }

  lemma RuleStart(g: Packed, r: nat)
    requires g.WellFormed() && 0 < r < |g.rlhs| && g.rlhs[r] >= g.ntokens
    ensures 2 <= r && g.rrhs[r] < |g.ritem| && g.ritem[g.rrhs[r]] < g.nsyms
  {
    assert g.RuleShape(r);
  }

  lemma SameReach(g: Packed, E: seq<set<nat>>, a: nat, b: nat)
    requires g.WellFormed() && |E| == g.nsyms - g.ntokens
    requires forall x: nat, y: nat :: x < |E| ==> (y in E[x] <==> Corner(g, x, y))
    ensures Reach(RowRel(E), a, b) <==> Reach(CornerRel(g), a, b)
  {
    ReachCongruence(RowRel(E), CornerRel(g), a, b);
  }

  /** The table of set_first_derives: row a holds the rules predicted through nonterminal a. */
  ghost predicate FirstDerivesRows(g: Packed, M: array2<Word>)
    requires g.WellFormed()
    reads M
  {
    && M.Length0 == g.nsyms - g.ntokens && M.Length1 == WordSize(|g.rlhs|)
    && forall a: nat, r: nat :: a < M.Length0 ==> (r in Rows(M)[a] <==> FirstDerives(g, a, r))
  }

  ghost function Predictions(g: Packed, a: nat, n: nat): set<nat> {
    set r: nat | r < |g.rlhs| && FirstDerives(g, a, r) && g.rlhs[r] < g.ntokens + n
  }

  /** set_first_derives. */
  method SetFirstDerives(g: Packed, derives: array<seq<nat>>) returns (firstDerives: array2<Word>)
    requires g.WellFormed() && DerivesLists(g, derives[..])
    ensures fresh(firstDerives) && FirstDerivesRows(g, firstDerives)
  {
    var EFF := SetEFF(g, derives);
    var nvars := g.nsyms - g.ntokens;
    firstDerives := NewMatrix(nvars, |g.rlhs|);
    ghost var E := Rows(EFF);
    ghost var D := derives[..];
    var i := 0;
    while i < nvars
      invariant i <= nvars && Rows(EFF) == E && derives[..] == D
      invariant forall a: nat :: a < nvars ==> Rows(firstDerives)[a] == if a < i then Predictions(g, a, nvars) else {}
    {
      FillPredictions(g, derives, EFF, firstDerives, i);
      i := i + 1;
    }
    forall a: nat, r: nat | a < nvars
      ensures r in Predictions(g, a, nvars) <==> FirstDerives(g, a, r)
    {
      if FirstDerives(g, a, r) {
        assert r > 2 ==> g.rlhs[r] < g.nsyms;
      }
    }
  }

  /** The inner loop of set_first_derives, along row i of EFF with a word and a mask cursor. */
  method FillPredictions(g: Packed, derives: array<seq<nat>>, EFF: array2<Word>, firstDerives: array2<Word>, i: nat)
    requires g.WellFormed() && DerivesLists(g, derives[..]) && EFF != firstDerives
    requires i < EFF.Length0 == firstDerives.Length0 == g.nsyms - g.ntokens
    requires EFF.Length1 == WordSize(g.nsyms - g.ntokens) && firstDerives.Length1 == WordSize(|g.rlhs|)
    requires forall b: nat :: b in Rows(EFF)[i] <==> Reach(CornerRel(g), i, b)
    requires Rows(firstDerives)[i] == {}
    modifies firstDerives
    ensures Rows(firstDerives) == old(Rows(firstDerives))[i := Predictions(g, i, g.nsyms - g.ntokens)]
  {
    var nvars := g.nsyms - g.ntokens;
    ghost var before := Rows(firstDerives);
    ghost var E := Rows(EFF);
    ghost var D := derives[..];
    var vrow, mask := 0, 0;
    var j := 0;
    assert Predictions(g, i, 0) == {};
    while j < nvars
      invariant j <= nvars && mask < 32 && 32 * vrow + mask == j && Rows(EFF) == E && derives[..] == D
      invariant Rows(firstDerives) == before[i := Predictions(g, i, j)]
    {
      WordBit(EFF, i, vrow, mask);
      if mask in EFF[i, vrow] {
        AddRules(g, derives[j + g.ntokens], firstDerives, i, j);
      } else {
        assert Predictions(g, i, j + 1) == Predictions(g, i, j);
      }
      mask := mask + 1;
      if mask == 32 {
        vrow := vrow + 1;
        mask := 0;
      }
      j := j + 1;
    }
  }

  /** The rules of nonterminal j join the predictions of those below it. */
  lemma PredictMore(g: Packed, rules: seq<nat>, i: nat, j: nat)
    requires g.WellFormed() && Lists(rules, RulesOf(g, j + g.ntokens, |g.rlhs|)) && Reach(CornerRel(g), i, j)
    ensures Predictions(g, i, j + 1) == Predictions(g, i, j) + Elements(rules)
  {
    forall r: nat
      ensures r in Predictions(g, i, j + 1) <==> r in Predictions(g, i, j) || r in rules
    {
      if r in rules {
        RuleStart(g, r);
      } else {
        assert r !in RulesOf(g, j + g.ntokens, |g.rlhs|);
      }
    }
  }

  /** Setting the bits of all rules of nonterminal j in row i. */
  method AddRules(g: Packed, rules: seq<nat>, firstDerives: array2<Word>, i: nat, j: nat)
    requires g.WellFormed() && Lists(rules, RulesOf(g, j + g.ntokens, |g.rlhs|))
    requires i < firstDerives.Length0 && firstDerives.Length1 == WordSize(|g.rlhs|)
    requires Reach(CornerRel(g), i, j) && Rows(firstDerives)[i] == Predictions(g, i, j)
    modifies firstDerives
    ensures Rows(firstDerives) == old(Rows(firstDerives))[i := Predictions(g, i, j + 1)]
  {
    hide Predictions, Packed.WellFormed, CornerRel, Reach;
    ghost var before := Rows(firstDerives);
    ghost var P := Predictions(g, i, j);
    PredictMore(g, rules, i, j);
    var rp := 0;
    assert P + Elements(rules[..0]) == P;
    while rp < |rules|
      invariant rp <= |rules|
      invariant Rows(firstDerives) == before[i := P + Elements(rules[..rp])]
    {
      assert rules[rp] in rules;
      SetBit(firstDerives, i, rules[rp]);
      assert rules[..rp + 1] == rules[..rp] + [rules[rp]];
      assert P + Elements(rules[..rp + 1]) == P + Elements(rules[..rp]) + {rules[rp]};
      rp := rp + 1;
    }
    assert rules[..rp] == rules;
    assert Predictions(g, i, j + 1) == P + Elements(rules);
  }

  ghost function Elements(s: seq<nat>): set<nat> {
    set x: nat | x in s
  }

  ghost predicate FirstItemOf(g: Packed, D: set<nat>, n: nat, x: nat) {
    exists r: nat :: r in D && r < n && r < |g.rrhs| && g.rrhs[r] == x
  }

  ghost predicate Rules(g: Packed, D: set<nat>) {
    forall r :: r in D ==> 2 <= r < |g.rlhs|
  }

  /** The merge so far: the first csp kernel items and the first items of the rules of D below n. */
  ghost predicate Merged(g: Packed, nucleus: seq<nat>, D: set<nat>, n: nat, csp: nat, items: seq<nat>)
    requires g.WellFormed() && Rules(g, D)
  {
    && csp <= |nucleus| && Ascending(items)
    && (forall x: nat :: x in items <==> x in nucleus[..csp] || FirstItemOf(g, D, n, x))
    && (forall x: nat, r: nat :: x in items && r in D && n <= r ==> x < g.rrhs[r])
    && (forall x: nat, p: nat :: x in items && csp <= p < |nucleus| ==> x < nucleus[p])
  }

  lemma MergeSkip(g: Packed, nucleus: seq<nat>, D: set<nat>, n: nat, m: nat, csp: nat, items: seq<nat>)
    requires g.WellFormed() && Rules(g, D) && Merged(g, nucleus, D, n, csp, items)
    requires n <= m && forall r: nat :: n <= r < m ==> r !in D
    ensures Merged(g, nucleus, D, m, csp, items)
  {
    forall x: nat
      ensures FirstItemOf(g, D, m, x) <==> FirstItemOf(g, D, n, x)
    {
    }
  }

  lemma AscendingPush(s: seq<nat>, x: nat)
    requires Ascending(s) && forall y: nat :: y in s ==> y < x
    ensures Ascending(s + [x]) && forall y: nat :: y in s + [x] <==> y in s || y == x
  {
    forall p | 0 <= p < |s|
      ensures s[p] < x
    {
      assert s[p] in s;
    }
  }

  lemma MergeFinish(g: Packed, nucleus: seq<nat>, D: set<nat>, items: seq<nat>)
    requires g.WellFormed() && Rules(g, D) && Merged(g, nucleus, D, |g.rlhs|, |nucleus|, items)
    requires forall p :: 0 <= p < |nucleus| ==> nucleus[p] < |g.ritem|
    requires forall r: nat :: r in D <==> KernelDerives(g, nucleus, r)
    ensures Lists(items, ClosureOf(g, nucleus)) && |items| <= |g.ritem|
  {
    forall x: nat
      ensures x in items <==> x in ClosureOf(g, nucleus)
      ensures x in items ==> x < |g.ritem|
    {
      assert nucleus[..|nucleus|] == nucleus;
      ClosureByRules(g, nucleus, x);
      if FirstItemOf(g, D, |g.rlhs|, x) {
        var r: nat :| r in D && r < |g.rlhs| && g.rrhs[r] == x;
        assert g.RuleShape(r);
      }
    }
    forall p | 0 <= p < |items|
      ensures items[p] < |g.ritem|
    {
      assert items[p] in items;
    }
    AscendingLength(items, |g.ritem|);
  }

  lemma {:induction false} AscendingLength(s: seq<nat>, n: nat)
    requires Ascending(s) && forall p :: 0 <= p < |s| ==> s[p] < n
    ensures |s| <= n
    decreases |s|
  {
    if s != [] {
      AscendingLength(s[..|s| - 1], s[|s| - 1]);
    }
  }

  class ItemSets {
    const g: Packed
    const firstDerives: array2<Word>
    const ruleset: array2<Word>
    var itemset: seq<nat>

    ghost predicate Valid()
      reads this, firstDerives, ruleset
    {
      && g.WellFormed() && FirstDerivesRows(g, firstDerives) && firstDerives != ruleset
      && ruleset.Length0 == 1 && ruleset.Length1 == WordSize(|g.rlhs|)
    }

    constructor (g: Packed, derives: array<seq<nat>>)
      requires g.WellFormed() && DerivesLists(g, derives[..])
      ensures Valid() && this.g == g && fresh(firstDerives) && fresh(ruleset)
    {
      var rows := SetFirstDerives(g, derives);
      var rules := NewMatrix(1, |g.rlhs|);
      this.g := g;
      firstDerives := rows;
      ruleset := rules;
      itemset := [];
    }

    /** The clearing of ruleset. */
    method ClearRules()
      requires Valid()
      modifies ruleset
      ensures Valid() && Rows(ruleset)[0] == {}
    {
      var w := 0;
      while w < ruleset.Length1
        invariant w <= ruleset.Length1 && forall k :: 0 <= k < w ==> ruleset[0, k] == {}
      {
        ruleset[0, w] := {};
        w := w + 1;
      }
      ZeroMembers(Words(ruleset, 0));
    }

    /** The first derivatives of the symbol at the dot, if it is a nonterminal. */
    method AddDerived(nucleus: seq<nat>, csp: nat)
      requires Valid() && csp < |nucleus| && nucleus[csp] < |g.ritem| && g.ritem[nucleus[csp]] < g.nsyms
      requires forall r: nat :: r in Rows(ruleset)[0] <==> KernelDerives(g, nucleus[..csp], r)
      modifies ruleset
      ensures Valid() && forall r: nat :: r in Rows(ruleset)[0] <==> KernelDerives(g, nucleus[..csp + 1], r)
    {
      var symbol := g.ritem[nucleus[csp]];
      if g.IsVar(symbol) {
        OrRow(ruleset, 0, firstDerives, symbol - g.ntokens);
      }
      hide KernelDerives;
      forall r: nat
        ensures KernelDerives(g, nucleus[..csp + 1], r) <==>
            KernelDerives(g, nucleus[..csp], r) || ItemDerives(g, nucleus[csp], r)
      {
        KernelDerivesSnoc(g, nucleus, csp, r);
      }
    }

    /** The first half of closure: ruleset becomes the rules the kernel derives. */
    method CollectRules(nucleus: seq<nat>)
      requires Valid() && forall p :: 0 <= p < |nucleus| ==> nucleus[p] < |g.ritem|
      requires forall p :: 0 <= p < |nucleus| ==> g.ritem[nucleus[p]] < g.nsyms
      modifies ruleset
      ensures Valid() && forall r: nat :: r in Rows(ruleset)[0] <==> KernelDerives(g, nucleus, r)
    {
      ClearRules();
      var csp := 0;
      while csp < |nucleus|
        invariant csp <= |nucleus| && Valid()
        invariant forall r: nat :: r in Rows(ruleset)[0] <==> KernelDerives(g, nucleus[..csp], r)
      {
        AddDerived(nucleus, csp);
        csp := csp + 1;
      }
      assert nucleus[..csp] == nucleus;
    }

    /** One rule of the merge: kernel items before its first item, then that item, once. */
    method MergeRule(nucleus: seq<nat>, csp0: nat, ruleno: nat, ghost D: set<nat>) returns (csp: nat)
      requires Valid() && Rules(g, D) && ruleno in D && Ascending(nucleus)
      requires Merged(g, nucleus, D, ruleno, csp0, itemset)
      modifies `itemset
      ensures Valid() && Merged(g, nucleus, D, ruleno + 1, csp, itemset)
    {
      csp := csp0;
      var itemno := g.rrhs[ruleno];
      while csp < |nucleus| && nucleus[csp] < itemno
        invariant Valid() && Merged(g, nucleus, D, ruleno, csp, itemset)
      {
        AscendingPush(itemset, nucleus[csp]);
        assert nucleus[..csp + 1] == nucleus[..csp] + [nucleus[csp]];
        RulesAbove(g, D, ruleno);
        itemset := itemset + [nucleus[csp]];
        csp := csp + 1;
      }
      AscendingPush(itemset, itemno);
      RulesAbove(g, D, ruleno);
      ghost var csp1 := csp;
      itemset := itemset + [itemno];
      while csp < |nucleus| && nucleus[csp] == itemno
        invariant csp1 <= csp <= |nucleus| && Valid()
        invariant forall x: nat :: x in nucleus[..csp] <==> x in nucleus[..csp1] || (csp1 < csp && x == itemno)
      {
        assert nucleus[..csp + 1] == nucleus[..csp] + [nucleus[csp]];
        csp := csp + 1;
      }
    }

    /** One word of ruleset: nothing to do, or the mask loop. */
    method MergeAt(nucleus: seq<nat>, csp0: nat, rsp: nat, ghost D: set<nat>) returns (csp: nat)
      requires Valid() && rsp < ruleset.Length1 && D == Rows(ruleset)[0] && Rules(g, D) && Ascending(nucleus)
      requires Merged(g, nucleus, D, 32 * rsp, csp0, itemset)
      modifies `itemset
      ensures Valid() && Merged(g, nucleus, D, 32 * (rsp + 1), csp, itemset)
    {
      csp := csp0;
      var ruleno := 32 * rsp;
      var word := ruleset[0, rsp];
      forall b: nat | b < 32
        ensures b in word <==> ruleno + b in D
      {
        WordBit(ruleset, 0, rsp, b);
      }
      if word == {} {
        MergeSkip(g, nucleus, D, ruleno, ruleno + 32, csp, itemset);
      } else {
        csp := MergeWord(nucleus, csp, ruleno, word, D);
      }
    }

    /** The kernel items after the last first item. */
    method CopyRest(nucleus: seq<nat>, csp0: nat, ghost D: set<nat>)
      requires Valid() && Rules(g, D) && Ascending(nucleus) && Merged(g, nucleus, D, |g.rlhs|, csp0, itemset)
      modifies `itemset
      ensures Valid() && Merged(g, nucleus, D, |g.rlhs|, |nucleus|, itemset)
    {
      var csp := csp0;
      while csp < |nucleus|
        invariant csp <= |nucleus| && Valid()
        invariant Merged(g, nucleus, D, |g.rlhs|, csp, itemset)
      {
        AscendingPush(itemset, nucleus[csp]);
        assert nucleus[..csp + 1] == nucleus[..csp] + [nucleus[csp]];
        itemset := itemset + [nucleus[csp]];
        csp := csp + 1;
      }
    }

    /** The loop over the words of ruleset. */
    method MergeWords(nucleus: seq<nat>, ghost D: set<nat>) returns (csp: nat)
      requires Valid() && D == Rows(ruleset)[0] && Rules(g, D) && Ascending(nucleus) &&
          Merged(g, nucleus, D, 0, 0, itemset)
      modifies `itemset
      ensures Valid() && Merged(g, nucleus, D, 32 * ruleset.Length1, csp, itemset)
    {
      csp := 0;
      var rsp: nat := 0;
      while rsp < ruleset.Length1
        invariant rsp <= ruleset.Length1 && Valid() && Merged(g, nucleus, D, 32 * rsp, csp, itemset)
      {
        csp := MergeAt(nucleus, csp, rsp, D);
        rsp := rsp + 1;
      }
    }

    /** closure: itemset becomes the least closure of the kernel, ascending. */
    method Closure(nucleus: seq<nat>)
      requires Valid() && Ascending(nucleus) && forall p :: 0 <= p < |nucleus| ==> nucleus[p] < |g.ritem|
      requires forall p :: 0 <= p < |nucleus| ==> g.ritem[nucleus[p]] < g.nsyms
      modifies `itemset, ruleset
      ensures Valid() && Lists(itemset, ClosureOf(g, nucleus)) && |itemset| <= |g.ritem|
    {
      CollectRules(nucleus);
      ghost var D := Rows(ruleset)[0];
      itemset := [];
      var csp := MergeWords(nucleus, D);
      AllRulesMerged(g, nucleus, D, 32 * ruleset.Length1, csp, itemset);
      CopyRest(nucleus, csp, D);
      MergeFinish(g, nucleus, D, itemset);
    }

    /** The mask loop over one nonzero word of ruleset. */
    method MergeWord(nucleus: seq<nat>, csp0: nat, ruleno0: nat, word: Word, ghost D: set<nat>) returns (csp: nat)
      requires Valid() && Rules(g, D) && Ascending(nucleus) && Merged(g, nucleus, D, ruleno0, csp0, itemset)
      requires forall b: nat :: b < 32 ==> (b in word <==> ruleno0 + b in D)
      modifies `itemset
      ensures Valid() && Merged(g, nucleus, D, ruleno0 + 32, csp, itemset)
    {
      csp := csp0;
      var mask, ruleno := 0, ruleno0;
      while mask < 32
        invariant mask <= 32 && ruleno == ruleno0 + mask && Valid()
        invariant Merged(g, nucleus, D, ruleno, csp, itemset)
      {
        if mask in word {
          csp := MergeRule(nucleus, csp, ruleno, D);
        } else {
          MergeSkip(g, nucleus, D, ruleno, ruleno + 1, csp, itemset);
        }
        mask := mask + 1;
        ruleno := ruleno + 1;
      }
    }
  }

  lemma KernelDerivesSnoc(g: Packed, nucleus: seq<nat>, k: nat, r: nat)
    requires k < |nucleus|
    ensures KernelDerives(g, nucleus[..k + 1], r) <==>
        KernelDerives(g, nucleus[..k], r) || ItemDerives(g, nucleus[k], r)
  {
    var s, t := nucleus[..k + 1], nucleus[..k];
    if KernelDerives(g, s, r) {
      var p: nat :| p < |s| && ItemDerives(g, s[p], r);
      assert p < k ==> t[p] == s[p];
    }
    if KernelDerives(g, t, r) {
      var p: nat :| p < |t| && ItemDerives(g, t[p], r);
      assert s[p] == t[p];
    }
    assert s[k] == nucleus[k];
  }

  /** The words of ruleset cover all rules. */
  lemma AllRulesMerged(g: Packed, nucleus: seq<nat>, D: set<nat>, n: nat, csp: nat, items: seq<nat>)
    requires g.WellFormed() && Rules(g, D) && Merged(g, nucleus, D, n, csp, items) && n >= |g.rlhs|
    ensures Merged(g, nucleus, D, |g.rlhs|, csp, items)
  {
    assert forall x: nat :: FirstItemOf(g, D, n, x) ==> FirstItemOf(g, D, |g.rlhs|, x);
  }

  lemma RulesAbove(g: Packed, D: set<nat>, n: nat)
    requires g.WellFormed() && Rules(g, D) && n in D
    ensures forall r: nat :: r in D && n < r ==> g.rrhs[n] < g.rrhs[r]
  {
    forall r: nat | r in D && n < r
      ensures g.rrhs[n] < g.rrhs[r]
    {
      RrhsAscends(g, n, r);
    }
  }
}

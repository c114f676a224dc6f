/** reader.c as a whole: the grammar as written and the packed grammar generate the same language. */
module FrontEnd {
  import opened Defs
  import opened Grammar
  import opened MkPar
  import opened MidRule
  import Reader
  import PG = PackGrammar
  import PS = PackSymbols
  import opened Output

  /** The grammar by bucket numbers, with the external numbers of its tokens. */
  function CodesOf(S: PG.Symbols, value: seq<int>): map<nat, int>
    requires S.ntokens <= |value|
  {
    map x: nat | 1 <= x < |S.index| && S.index[x] < S.ntokens :: value[S.index[x]]
  }

  /** g has the productions P after its start rule, every bucket replaced by its number. */
  ghost predicate Renames(S: PG.Symbols, P: seq<Production>, value: seq<int>, g: Packed) {
    && S.OK() && g.WellFormed() && g.ntokens == S.ntokens && g.nsyms == S.nsyms && g.value == value
    && |g.rlhs| == |P| + 3
    && (forall x, y :: 1 <= x < y < |S.index| ==> S.index[x] != S.index[y])
    && forall j :: 0 <= j < |P| ==> Renamed(S, P[j], g, j + 3)
  }

  ghost predicate Renamed(S: PG.Symbols, p: Production, g: Packed, r: nat)
    requires g.WellFormed()
  {
    && 3 <= r < |g.rlhs| && 1 <= p.lhs < |S.index| && PG.Known(S, p.rhs)
    && g.rlhs[r] == S.index[p.lhs] && g.Rhs(r) == PG.Indexed(S, p.rhs)
  }

  /** A tree over P as a tree over g: the start rule comes first there. */
  ghost function Up(t: Tree): Tree {
    match t
    case Leaf(_) => t
    case Node(r, cs) => Node(r + 1, seq(|cs|, j requires 0 <= j < |cs| => Up(cs[j])))
  }

  ghost function Down(t: Tree): Tree {
    match t
    case Leaf(_) => t
    case Node(r, cs) => Node(if r == 0 then 0 else r - 1, seq(|cs|, j requires 0 <= j < |cs| => Down(cs[j])))
  }

  /** Production q is p with every bucket replaced by its number. */
  ghost predicate Numbered(S: PG.Symbols, p: Production, q: Production) {
    && 1 <= p.lhs < |S.index| && q.lhs == S.index[p.lhs] && |p.rhs| == |q.rhs|
    && forall k :: 0 <= k < |p.rhs| ==> 1 <= p.rhs[k] < |S.index| && q.rhs[k] == S.index[p.rhs[k]]
  }

  /** The productions of the packed grammar past its first are those of P, numbered. */
  lemma ProductionNumbered(S: PG.Symbols, P: seq<Production>, value: seq<int>, g: Packed, r: nat)
    requires Renames(S, P, value, g) && r < |P|
    ensures |g.ToCfg().productions| == |P| + 1 && Numbered(S, P[r], g.ToCfg().productions[r + 1])
  {
    assert Renamed(S, P[r], g, r + 3);
    assert forall k :: 0 <= k < |P[r].rhs| ==> g.Rhs(r + 3)[k] == PG.Indexed(S, P[r].rhs)[k];
  }

  lemma LeavesAgree(S: PG.Symbols, P: seq<Production>, value: seq<int>, g: Packed, l: Lexeme, X: nat)
    requires Renames(S, P, value, g) && 1 <= X < |S.index|
    ensures Parses(Cfg(P, CodesOf(S, value)), Leaf(l), X) <==> Parses(g.ToCfg(), Leaf(l), S.index[X])
  {}

  /** A node of a tree for a symbol of P is not by the start rule. */
  lemma NotStart(S: PG.Symbols, P: seq<Production>, value: seq<int>, g: Packed, t: Tree, X: nat)
    requires Renames(S, P, value, g) && 1 <= X < |S.index| && t.Node? && Parses(g.ToCfg(), t, S.index[X])
    ensures 0 < t.rule <= |P|
  {}

  lemma {:induction false} UpParses(S: PG.Symbols, P: seq<Production>, value: seq<int>, g: Packed, t: Tree, X: nat)
    requires Renames(S, P, value, g) && 1 <= X < |S.index| && Parses(Cfg(P, CodesOf(S, value)), t, X)
    ensures Parses(g.ToCfg(), Up(t), S.index[X]) && Yield(Up(t)) == Yield(t)
    decreases t
  {
    hide Renames, Packed.WellFormed, Packed.ToCfg, CodesOf;
    RenamesPacked(S, P, value, g);
    match t
    case Leaf(l) =>
      LeavesAgree(S, P, value, g, l, X);
    case Node(r, cs) =>
      ProductionNumbered(S, P, value, g, r);
      var ds := seq(|cs|, j requires 0 <= j < |cs| => Up(cs[j]));
      forall j | 0 <= j < |cs|
        ensures Parses(g.ToCfg(), ds[j], g.ToCfg().productions[r + 1].rhs[j]) && Yield(ds[j]) == Yield(cs[j])
      {
        UpParses(S, P, value, g, cs[j], P[r].rhs[j]);
      }
      SameYields(ds, cs);
  }

  lemma RenamesPacked(S: PG.Symbols, P: seq<Production>, value: seq<int>, g: Packed)
    requires Renames(S, P, value, g)
    ensures g.WellFormed() && S.ntokens <= |value|
  {}

  lemma {:induction false} DownParses(S: PG.Symbols, P: seq<Production>, value: seq<int>, g: Packed, t: Tree, X: nat)
    requires Renames(S, P, value, g) && 1 <= X < |S.index| && Parses(g.ToCfg(), t, S.index[X])
    ensures Parses(Cfg(P, CodesOf(S, value)), Down(t), X) && Yield(Down(t)) == Yield(t)
    decreases t
  {
    hide Renames, Packed.WellFormed, Packed.ToCfg, CodesOf;
    RenamesPacked(S, P, value, g);
    match t
    case Leaf(l) =>
      LeavesAgree(S, P, value, g, l, X);
    case Node(r, cs) =>
      NotStart(S, P, value, g, t, X);
      ProductionNumbered(S, P, value, g, r - 1);
      OneNumber(S, P, value, g, P[r - 1].lhs, X);
      var ds := seq(|cs|, j requires 0 <= j < |cs| => Down(cs[j]));
      forall j | 0 <= j < |cs|
        ensures Parses(Cfg(P, CodesOf(S, value)), ds[j], P[r - 1].rhs[j]) && Yield(ds[j]) == Yield(cs[j])
      {
        DownParses(S, P, value, g, cs[j], P[r - 1].rhs[j]);
      }
      SameYields(ds, cs);
  }

  lemma OneNumber(S: PG.Symbols, P: seq<Production>, value: seq<int>, g: Packed, x: nat, y: nat)
    requires Renames(S, P, value, g) && 1 <= x < |S.index| && 1 <= y < |S.index| && S.index[x] == S.index[y]
    ensures x == y
  {}

  /** Numbering the symbols keeps the language of every one of them. */
  lemma NumberingKeepsLanguage(S: PG.Symbols, P: seq<Production>, value: seq<int>, g: Packed, X: nat, w: seq<Lexeme>)
    requires Renames(S, P, value, g) && 1 <= X < |S.index|
    ensures Derives(Cfg(P, CodesOf(S, value)), X, w) <==> Derives(g.ToCfg(), S.index[X], w)
  {
    if Derives(Cfg(P, CodesOf(S, value)), X, w) {
      var t :| Parses(Cfg(P, CodesOf(S, value)), t, X) && Yield(t) == w;
      UpParses(S, P, value, g, t, X);
    }
    if Derives(g.ToCfg(), S.index[X], w) {
      var t :| Parses(g.ToCfg(), t, S.index[X]) && Yield(t) == w;
      DownParses(S, P, value, g, t, X);
    }
  }

  /** symbol_prec and symbol_assoc: every bucket's precedence under its number. */
  method ByNumber(index: seq<nat>, nsyms: nat, prec: seq<int>, assoc: seq<Assoc>) returns (sp: seq<int>, sa: seq<Assoc>)
    requires |index| == |prec| == |assoc| && forall b :: 1 <= b < |index| ==> index[b] < nsyms
    requires forall a, b :: 1 <= a < b < |index| ==> index[a] != index[b]
    ensures |sp| == |sa| == nsyms && forall b :: 1 <= b < |index| ==>
        sp[index[b]] == prec[b] && sa[index[b]] == assoc[b]
  {
    sp, sa := seq(nsyms, _ => 0), seq(nsyms, _ => Token);
    var b := 1;
    while b < |index|
      invariant 1 <= b && |sp| == |sa| == nsyms
      invariant forall a :: 1 <= a < b && a < |index| ==> sp[index[a]] == prec[a] && sa[index[a]] == assoc[a]
    {
      sp, sa := sp[index[b] := prec[b]], sa[index[b] := assoc[b]];
      b := b + 1;
    }
  }

  /** The classes fit the rules read: tokens head no rule. */
  ghost predicate Classified(isTerm: seq<bool>, P: seq<Production>) {
    forall p :: p in P ==> 0 < p.lhs < |isTerm| && !isTerm[p.lhs]
  }

  lemma BookIsKnown(b: Reader.Book, S: PG.Symbols)
    requires b.OK() && S.OK() && |S.index| == b.nsymbols + 1
    ensures PG.AllKnown(S, b.closed + [b.tail])
    ensures forall r :: 3 <= r < |b.plhs| ==> 1 <= b.plhs[r] < |S.index|
  {
    var closed := b.closed + [b.tail];
    var P := b.Productions();
    forall j | 0 <= j < |closed|
      ensures PG.Known(S, closed[j])
    {
      assert P[j] in P && P[j].rhs == closed[j];
      assert forall k :: 0 <= k < |closed[j]| ==> closed[j][k] in P[j].rhs;
    }
    forall r | 3 <= r < |b.plhs|
      ensures 1 <= b.plhs[r] < |S.index|
    {
      assert P[r - 3] in P && P[r - 3].lhs == b.plhs[3..][r - 3];
    }
  }

  /** What was packed is the grammar read, renumbered. */
  lemma PackedRenames(b: Reader.Book, S: PG.Symbols, isTerm: seq<bool>, goal: nat, rlhs: seq<nat>, rrhs: seq<nat>,
                      value: seq<int>)
    requires b.OK() && S.OK() && |S.index| == b.nsymbols + 1 && 1 <= goal < |S.index| && S.index[goal] == S.ntokens + 1
    requires |isTerm| == |S.index| && PS.IndexOK(isTerm, goal, S.ntokens, S.index) &&
        Classified(isTerm, b.Productions())
    requires PG.AllKnown(S, b.closed + [b.tail]) && PG.Starts(S, goal, b.closed + [b.tail], rrhs) && |value| == S.nsyms
    requires |rlhs| == |b.closed| + 4 && rlhs[..3] == [0, 0, S.ntokens]
    requires forall r: nat :: 3 <= r < |rlhs| ==> PG.LhsPacked(S, b.plhs, rlhs, r)
    ensures var closed := b.closed + [b.tail];
            var g := PG.Laid(S, PG.ItemsFor(S, goal, closed, |closed|), rlhs, rrhs, value);
            g.WellFormed() && Renames(S, b.Productions(), value, g)
  {
    var closed := b.closed + [b.tail];
    var P := b.Productions();
    forall r: nat | 3 <= r < |rlhs|
      ensures S.ntokens < rlhs[r] < S.nsyms
    {
      assert PG.LhsPacked(S, b.plhs, rlhs, r) && P[r - 3] in P && P[r - 3].lhs == b.plhs[3..][r - 3];
    }
    PG.LaidIsWellFormed(S, goal, closed, rlhs, rrhs, value);
    var g := PG.Laid(S, PG.ItemsFor(S, goal, closed, |closed|), rlhs, rrhs, value);
    forall j | 0 <= j < |P|
      ensures Renamed(S, P[j], g, j + 3)
    {
      PG.LaidRhs(S, goal, closed, rlhs, rrhs, value, j + 3);
      assert PG.LhsPacked(S, b.plhs, rlhs, j + 3) && P[j] in P && P[j].lhs == b.plhs[3..][j];
    }
  }

  /** Packing keeps the language of the grammar as written. */
  lemma PackingKeepsLanguage(b: Reader.Book, S: PG.Symbols, isTerm: seq<bool>, goal: nat, value: seq<int>, g: Packed,
                             X: nat, w: seq<Lexeme>)
    requires b.OK() && Renames(S, b.Productions(), value, g) && |S.index| == |isTerm| == b.nsymbols + 1 &&
        goal < |isTerm|
    requires PS.IndexOK(isTerm, goal, S.ntokens, S.index) && Classified(isTerm, b.Productions()) && S.ntokens <= |value|
    requires b.Written(X)
    ensures Derives(Cfg(b.steps[0], CodesOf(S, value)), X, w) <==> Derives(g.ToCfg(), S.index[X], w)
  {
    MarksAreRules(b);
    forall m | m in b.marks
      ensures m.M !in CodesOf(S, value)
    {
      var p :| p in b.Productions() && p.lhs == m.M;
    }
    Reader.ReadingKeepsLanguage(b, CodesOf(S, value), X, w);
    NumberingKeepsLanguage(S, b.Productions(), value, g, X, w);
  }

  /** Every symbol made up for an action heads a rule. */
  lemma MarksAreRules(b: Reader.Book)
    requires b.OK()
    ensures forall m :: m in b.marks ==> exists p :: p in b.Productions() && p.lhs == m.M
  {
    forall m | m in b.marks
      ensures exists p :: p in b.Productions() && p.lhs == m.M
    {
      var j :| 0 <= j < |b.marks| && b.marks[j] == m;
      MarkStays(b.steps, b.marks, j, |b.steps| - 1);
    }
  }

  lemma {:induction false} MarkStays(steps: seq<seq<Production>>, marks: seq<Mark>, j: nat, n: nat)
    requires Chain(steps, marks) && j < |marks| && j < n < |steps|
    ensures exists p :: p in steps[n] && p.lhs == marks[j].M
    decreases n
  {
    assert StepAt(steps[n - 1], steps[n], marks[n - 1]);
    if j == n - 1 {
      assert steps[n][marks[j].i] == Production(marks[j].M, []);
    } else {
      MarkStays(steps, marks, j, n - 1);
      var p :| p in steps[n - 1] && p.lhs == marks[j].M;
      var i :| 0 <= i < |steps[n - 1]| && steps[n - 1][i] == p;
      var m := marks[n - 1];
      var q := if i < m.i then i else i + 1;
      assert steps[n][q].lhs == p.lhs;
    }
  }

  /** The symbols are numbered from their classes and given numbers, and g has the productions P. */
  ghost predicate Packs(isTerm: seq<bool>, given: seq<int>, goal: nat, P: seq<Production>, S: PG.Symbols, g: Packed) {
    && goal < |isTerm| == |given| && PS.IndexOK(isTerm, goal, g.ntokens, S.index)
    && PS.NumbersGiven(isTerm, given, S.index, g.value) && Renames(S, P, g.value, g)
  }

  /** Place k of the right-hand side s holds a token, and no later one does. */
  ghost predicate LastToken(isTerm: seq<bool>, s: seq<nat>, k: int) {
    0 <= k < |s| && s[k] < |isTerm| && isTerm[s[k]] && forall l :: k < l < |s| ==> s[l] < |isTerm| && !isTerm[s[l]]
  }

  ghost predicate NoToken(isTerm: seq<bool>, s: seq<nat>) {
    forall k :: 0 <= k < |s| ==> s[k] < |isTerm| && !isTerm[s[k]]
  }

  /** p and a are declared for the last token of s; without a token there are none. */
  ghost predicate TokenRank(isTerm: seq<bool>, prec: seq<int>, assoc: seq<Assoc>, s: seq<nat>, p: int, a: Assoc)
    requires |prec| == |assoc| == |isTerm|
  {
    && (forall k :: LastToken(isTerm, s, k) ==> p == prec[s[k]] && a == assoc[s[k]])
    && (NoToken(isTerm, s) ==> p == 0 && a == Token)
  }

  /** Every rule has the precedence given to it, or that of its last token. */
  ghost predicate RuleRanks(isTerm: seq<bool>, prec: seq<int>, assoc: seq<Assoc>, closed: seq<seq<nat>>,
                            rprec: seq<int>, rassoc: seq<Assoc>, P: Precedence) {
    && |closed| + 3 == |P.rulePrec| == |P.ruleAssoc| && |rprec| == |rassoc| >= |closed| + 3
    && |prec| == |assoc| == |isTerm|
    && forall r :: 3 <= r < |P.rulePrec| ==>
         if rprec[r] == UNDEFINED then TokenRank(isTerm, prec, assoc, closed[r - 3], P.rulePrec[r], P.ruleAssoc[r])
         else P.rulePrec[r] == rprec[r] && P.ruleAssoc[r] == rassoc[r]
  }

  /** Precedences as declared for symbols and rules. */
  ghost predicate Ranks(isTerm: seq<bool>, S: PG.Symbols, prec: seq<int>, assoc: seq<Assoc>, closed: seq<seq<nat>>,
                        rprec: seq<int>, rassoc: seq<Assoc>, P: Precedence) {
    && S.OK() && |S.index| == |prec| == |assoc| && |P.symbolPrec| == |P.symbolAssoc| == S.nsyms
    && (forall b :: 1 <= b < |S.index| ==> P.symbolPrec[S.index[b]] == prec[b] && P.symbolAssoc[S.index[b]] == assoc[b])
    && RuleRanks(isTerm, prec, assoc, closed, rprec, rassoc, P)
  }

  lemma RanksHold(isTerm: seq<bool>, goal: nat, S: PG.Symbols, closed: seq<seq<nat>>, rprec: seq<int>,
                  rassoc: seq<Assoc>, P: Precedence)
    requires S.OK() && goal < |isTerm| == |S.index| && PS.IndexOK(isTerm, goal, S.ntokens, S.index)
    requires PG.RulePrecedences(S, closed, rprec, rassoc, P.rulePrec, P.ruleAssoc)
    ensures RuleRanks(isTerm, S.prec, S.assoc, closed, rprec, rassoc, P)
  {
    forall r | 3 <= r < |P.rulePrec| && rprec[r] == UNDEFINED
      ensures TokenRank(isTerm, S.prec, S.assoc, closed[r - 3], P.rulePrec[r], P.ruleAssoc[r])
    {
      var rhs := closed[r - 3];
      forall k | LastToken(isTerm, rhs, k)
        ensures PG.LastTokenAt(S, rhs, k)
      {
      }
    }
  }

  /** The token codes of the grammar as written: every token has one, the one given to it, 256 for the
      error token, or one above that, and no two are equal. */
  ghost predicate CodesGiven(isTerm: seq<bool>, given: seq<int>, codes: map<nat, int>)
    requires |isTerm| == |given|
  {
    && (forall b :: b in codes <==> 1 <= b < |isTerm| && isTerm[b])
    && (forall b :: b in codes ==> codes[b] > 0)
    && (forall b :: b in codes ==>
          if given[b] != UNDEFINED then codes[b] == given[b] else if b == 1 then codes[b] == 256 else codes[b] > 256)
    && forall a, b :: a in codes && b in codes && a != b ==> codes[a] != codes[b]
  }

  lemma CodesAreGiven(isTerm: seq<bool>, given: seq<int>, goal: nat, P: seq<Production>, S: PG.Symbols, g: Packed)
    requires Packs(isTerm, given, goal, P, S, g) && Values(g)
    ensures CodesGiven(isTerm, given, CodesOf(S, g.value))
  {
    var codes := CodesOf(S, g.value);
    forall a, b | a in codes && b in codes && a != b
      ensures codes[a] != codes[b]
    {
      assert S.index[a] != S.index[b];
      assert S.index[a] < S.index[b] || S.index[b] < S.index[a];
    }
    forall b | b in codes
      ensures codes[b] > 0
    {
      assert g.value[0] != g.value[S.index[b]];
    }
  }

  /** The end of reader: symbols numbered, rules packed. The packed grammar gives from every symbol
      written what the grammar as written, without the rules made up for actions, gives from it. */
  method PackUp(rules: Reader.Rules, isTerm: seq<bool>, given: seq<int>, prec: seq<int>, assoc: seq<Assoc>, goal: nat)
    returns (g: Packed, P: Precedence, ghost S: PG.Symbols)
    requires rules.Valid() && |isTerm| == |given| == |prec| == |assoc| == rules.nsymbols + 1 && |isTerm| > 1 &&
        isTerm[1]
    requires 1 <= goal < |isTerm| && !isTerm[goal] && Classified(isTerm, rules.Now().Productions())
    requires forall b :: 0 <= b < |given| ==> given[b] >= 0 || given[b] == UNDEFINED
    modifies rules
    ensures Values(g) <==> PS.GivenApart(isTerm, given)
    ensures S.OK() && Covers(P, g) && S.ntokens <= |g.value|
    ensures Packs(isTerm, given, goal, old(rules.Now().Productions()), S, g)
    ensures Ranks(isTerm, S, prec, assoc, old(rules.closed + [rules.tail]), old(rules.rprec), old(rules.rassoc), P)
    ensures forall X: nat, w: seq<Lexeme> :: old(rules.Now().Written(X)) ==>
              (Derives(Cfg(old(rules.steps[0]), CodesOf(S, g.value)), X, w) <==> Derives(g.ToCfg(), S.index[X], w))
  {
    ghost var b := rules.Now();
    rules.Finish();
    var ntokens, index, value := PS.NumberSymbols(isTerm, given, goal);
    var nsyms := |isTerm| + 1;
    var symbols := PG.Symbols(index, ntokens, nsyms, prec, assoc);
    S := symbols;
    BookIsKnown(b, S);
    ghost var closed := b.closed + [b.tail];
    var ritem, rlhs, rrhs, rp, ra := PG.Pack(symbols, goal, rules.pitem, rules.plhs, closed, rules.rprec, rules.rassoc);
    PG.PackedStarts(S, goal, b.plhs, closed, rules.rprec, rules.rassoc, ritem, rlhs, rrhs, rp, ra);
    g := PG.Laid(symbols, ritem, rlhs, rrhs, value);
    PG.PackedPrecedences(S, goal, b.plhs, closed, rules.rprec, rules.rassoc, ritem, rlhs, rrhs[..|closed| + 3], rp, ra);
    PackedRenames(b, S, isTerm, goal, rlhs, rrhs, value);
    var sp, sa := ByNumber(index, nsyms, prec, assoc);
    P := Precedence(sp, sa, rp, ra);
    RanksHold(isTerm, goal, S, closed, rules.rprec, rules.rassoc, P);
    ValuesHold(g);
    forall X: nat, w: seq<Lexeme> | b.Written(X)
      ensures Derives(Cfg(b.steps[0], CodesOf(S, g.value)), X, w) <==> Derives(g.ToCfg(), S.index[X], w)
    {
      PackingKeepsLanguage(b, S, isTerm, goal, value, g, X, w);
    }
  }

  /** The numbers are as later stages expect them exactly when those of the tokens differ. */
  lemma ValuesHold(g: Packed)
    requires g.WellFormed() && g.value[0] == 0 && g.value[g.ntokens] == -1
    requires forall t :: 0 <= t < g.ntokens ==> g.value[t] >= 0
    requires forall X :: g.ntokens < X < |g.value| ==> g.value[X] == X - g.ntokens - 1
    ensures Values(g) <==> PS.Distinct(g.value[..g.ntokens])
  {
    assert forall t :: 0 <= t < g.ntokens ==> g.value[..g.ntokens][t] == g.value[t];
  }
}

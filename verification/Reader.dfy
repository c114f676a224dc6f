/** reader.c, the rules of the grammar as they are read: items and left-hand sides, and the empty
    rules inserted for actions inside a rule. */
module Reader {
  import opened Defs
  import opened Grammar
  import opened MkPar
  import opened MidRule

  /** Right-hand sides one after the other, each closed by 0. */
  function Flat(closed: seq<seq<nat>>): seq<nat> {
    if closed == [] then [] else Flat(closed[..|closed| - 1]) + closed[|closed| - 1] + [0]
  }

  lemma FlatSnoc(closed: seq<seq<nat>>, s: seq<nat>)
    ensures Flat(closed + [s]) == Flat(closed) + s + [0]
  {
    assert (closed + [s])[..|closed + [s]| - 1] == closed;
  }

  ghost predicate Nonzero(s: seq<nat>) {
    forall k :: 0 <= k < |s| ==> s[k] != 0
  }

  /** The productions spelled by items and left-hand sides. */
  ghost function RulesOf(plhs: seq<nat>, closed: seq<seq<nat>>): seq<Production>
    requires |closed| <= |plhs|
  {
    seq(|closed|, j requires 0 <= j < |closed| => Production(plhs[j], closed[j]))
  }

  /** Every symbol of P is numbered from 1 to n. */
  ghost predicate Within(P: seq<Production>, n: nat) {
    forall p :: p in P ==> 0 < p.lhs <= n && forall x :: x in p.rhs ==> 0 < x <= n
  }

  /** before, of length n, with everything from place bpp - 1 on moved one place up and bp behind. */
  ghost predicate Shifting(before: seq<nat>, cur: seq<nat>, n: nat, bpp: nat, bp: nat) {
    && |before| == n && |cur| == n + 2 && cur[n + 1] == bp && 1 <= bpp <= n
    && cur[..bpp] == before[..bpp] && cur[bpp..n + 1] == before[bpp - 1..]
  }

  lemma ShiftStart(before: seq<nat>, bp: nat)
    requires before != []
    ensures var n := |before|; var grown := (before + [0, 0])[n + 1 := bp];
            Shifting(before, grown[n := grown[n - 1]], n, n, bp)
  {
    var n := |before|;
    assert before[n - 1..] == [before[n - 1]];
  }

  lemma ShiftStep(before: seq<nat>, cur: seq<nat>, n: nat, bpp: nat, bp: nat)
    requires Shifting(before, cur, n, bpp, bp) && bpp > 1
    ensures |cur| == n + 2 && bpp <= n
    ensures Shifting(before, cur[bpp - 1 := cur[bpp - 2]], n, bpp - 1, bp)
  {
    var next := cur[bpp - 1 := cur[bpp - 2]];
    assert cur[bpp - 2] == cur[..bpp][bpp - 2];
    assert next[..bpp - 1] == cur[..bpp][..bpp - 1];
    assert next[bpp - 1..n + 1] == [next[bpp - 1]] + cur[bpp..n + 1];
    assert before[bpp - 2..] == [before[bpp - 2]] + before[bpp - 1..];
  }

  lemma ShiftHere(before: seq<nat>, cur: seq<nat>, n: nat, bpp: nat, bp: nat)
    requires Shifting(before, cur, n, bpp, bp)
    ensures |cur| == n + 2 && |before| == n && 1 <= bpp <= n && cur[bpp] == before[bpp - 1]
  {
    assert cur[bpp] == cur[bpp..n + 1][0];
  }

  lemma ShiftDone(before: seq<nat>, cur: seq<nat>, n: nat, bpp: nat, bp: nat)
    requires Shifting(before, cur, n, bpp, bp) && before[bpp - 1] == 0
    ensures cur == before[..bpp] + [0] + before[bpp..] + [bp]
  {
    assert cur == cur[..bpp] + cur[bpp..n + 1] + [cur[n + 1]];
    assert before[bpp - 1..] == [0] + before[bpp..];
  }

  /** The items and rules, the grammar they spell, and how it came about from the one written. */
  datatype Book = Book(pitem: seq<nat>, plhs: seq<nat>, nsymbols: nat, closed: seq<seq<nat>>, tail: seq<nat>,
                       steps: seq<seq<Production>>, marks: seq<Mark>) {
    /** The finished rules and the open one. */
    ghost function Productions(): seq<Production>
      requires 3 + |closed| < |plhs|
    {
      RulesOf(plhs[3..], closed + [tail])
    }

    ghost predicate OK() {
      && |plhs| == 4 + |closed| && pitem == [0, 0, 0, 0] + Flat(closed) + tail && Nonzero(tail)
      && (forall j :: 0 <= j < |closed| ==> Nonzero(closed[j]))
      && Chain(steps, marks) && steps[|steps| - 1] == Productions() && Within(Productions(), nsymbols)
      && (forall m :: m in marks ==> 0 < m.M <= nsymbols) && (forall j :: 0 <= j < |steps| ==> steps[j] != [])
    }

    /** Symbol x was not made up for an action. */
    ghost predicate Written(x: nat) {
      0 < x <= nsymbols && forall m :: m in marks ==> x != m.M
    }
  }

  /** The book after an empty rule was inserted. */
  ghost function AfterInsert(b: Book): Book
    requires |b.plhs| == 4 + |b.closed|
  {
    var n, M := 3 + |b.closed|, b.nsymbols + 1;
    var items := [0, 0, 0, 0] + Flat(b.closed) + [0] + b.tail + [M];
    var c := Book(items, b.plhs[..n] + [M] + b.plhs[n..], M, b.closed + [[]], b.tail + [M], [], []);
    c.(steps := b.steps + [c.Productions()], marks := b.marks + [Mark(|b.closed|, |b.tail|, M)])
  }

  lemma InsertOK(b: Book)
    requires b.OK()
    ensures AfterInsert(b).OK()
    ensures AfterInsert(b).Productions() ==
            RulesOf(b.plhs[3..], b.closed) + [Production(b.nsymbols + 1, [])] +
                [Production(b.plhs[3 + |b.closed|], b.tail + [b.nsymbols + 1])]
  {
    hide RulesOf, Chain, StepAt, Within, Flat;
    var c := AfterInsert(b);
    var P, m := b.Productions(), Mark(|b.closed|, |b.tail|, b.nsymbols + 1);
    RulesMoved(b.plhs, b.closed, b.tail, m.M);
    FlatSnoc(b.closed, []);
    OpenRule(b.plhs, b.closed, b.tail);
    Inserting(P, c.Productions(), m);
    InsertedWithin(P, m, b.nsymbols);
    ChainSnoc(b.steps, b.marks, c.Productions(), m);
  }

  lemma BookShape(b: Book)
    requires b.OK()
    ensures |b.plhs| == 4 + |b.closed|
  {}

  /** Every stage of the grammar with one more symbol in its open rule. */
  ghost function AllWithSymbol(steps: seq<seq<Production>>, x: nat): seq<seq<Production>>
    requires forall j :: 0 <= j < |steps| ==> steps[j] != []
  {
    seq(|steps|, j requires 0 <= j < |steps| => WithSymbol(steps[j], x))
  }

  ghost function AllWithRule(steps: seq<seq<Production>>, lhs: nat): seq<seq<Production>> {
    seq(|steps|, j requires 0 <= j < |steps| => steps[j] + [Production(lhs, [])])
  }

  lemma ChainWithSymbol(steps: seq<seq<Production>>, marks: seq<Mark>, x: nat)
    requires Chain(steps, marks) && (forall j :: 0 <= j < |steps| ==> steps[j] != []) && forall m :: m in marks ==>
        x != m.M
    ensures Chain(AllWithSymbol(steps, x), marks)
  {
    var steps' := AllWithSymbol(steps, x);
    forall j, l | 0 <= j < l < |steps'| && l == j + 1
      ensures StepAt(steps'[j], steps'[l], marks[j])
    {
      assert marks[j] in marks;
      StepWithSymbol(steps[j], steps[l], marks[j], x);
    }
  }

  lemma ChainWithRule(steps: seq<seq<Production>>, marks: seq<Mark>, lhs: nat)
    requires Chain(steps, marks) && forall m :: m in marks ==> lhs != m.M
    ensures Chain(AllWithRule(steps, lhs), marks)
  {
    var steps' := AllWithRule(steps, lhs);
    forall j, l | 0 <= j < l < |steps'| && l == j + 1
      ensures StepAt(steps'[j], steps'[l], marks[j])
    {
      assert marks[j] in marks;
      StepWithRule(steps[j], steps[l], marks[j], Production(lhs, []));
    }
  }

  ghost function AfterSymbol(b: Book, x: nat): Book
    requires forall j :: 0 <= j < |b.steps| ==> b.steps[j] != []
  {
    b.(pitem := b.pitem + [x], tail := b.tail + [x], steps := AllWithSymbol(b.steps, x))
  }

  ghost function AfterRule(b: Book, lhs: nat): Book {
    b.(pitem := b.pitem + [0], plhs := b.plhs + [lhs], closed := b.closed + [b.tail], tail := [],
        steps := AllWithRule(b.steps, lhs))
  }

  lemma SymbolOK(b: Book, x: nat)
    requires b.OK() && b.Written(x)
    ensures AfterSymbol(b, x).OK()
  {
    var c := AfterSymbol(b, x);
    var n := |b.closed|;
    ChainWithSymbol(b.steps, b.marks, x);
    var P := b.Productions();
    assert P[n] in P;
    assert c.Productions() == WithSymbol(P, x);
    WithinSymbol(P, x, b.nsymbols);
  }

  lemma WithinSymbol(P: seq<Production>, x: nat, n: nat)
    requires P != [] && Within(P, n) && 0 < x <= n
    ensures Within(WithSymbol(P, x), n)
  {
    var Q := WithSymbol(P, x);
    forall p | p in Q
      ensures 0 < p.lhs <= n && forall y :: y in p.rhs ==> 0 < y <= n
    {
      var j :| 0 <= j < |Q| && Q[j] == p;
      assert P[j] in P;
    }
  }

  lemma RuleOK(b: Book, lhs: nat)
    requires b.OK() && b.Written(lhs)
    ensures AfterRule(b, lhs).OK()
  {
    var c := AfterRule(b, lhs);
    ChainWithRule(b.steps, b.marks, lhs);
    FlatSnoc(b.closed, b.tail);
    assert c.Productions() == b.Productions() + [Production(lhs, [])];
  }

  /** Where the items of the open rule start. */
  lemma OpenFrom(b: Book) returns (z: nat)
    requires b.OK()
    ensures 1 < z <= |b.pitem| && b.pitem[z - 1] == 0 && forall k :: z <= k < |b.pitem| ==> b.pitem[k] != 0
    ensures b.pitem[..z] + [0] + b.pitem[z..] + [b.nsymbols + 1] == AfterInsert(b).pitem
  {
    FlatEnds(b.closed);
    z := 4 + |Flat(b.closed)|;
    assert b.pitem[..z] == [0, 0, 0, 0] + Flat(b.closed) && b.pitem[z..] == b.tail;
  }

  class Rules {
    var pitem: seq<nat>
    var plhs: seq<nat>
    var rprec: seq<int>
    var rassoc: seq<Assoc>
    var nrules: nat
    /** Symbols are numbered from 1; 0 is the null bucket. */
    var nsymbols: nat
    var lastWasAction: bool
    ghost var closed: seq<seq<nat>>
    ghost var tail: seq<nat>
    ghost var steps: seq<seq<Production>>
    ghost var marks: seq<Mark>

    ghost function Now(): Book
      reads this
    {
      Book(pitem, plhs, nsymbols, closed, tail, steps, marks)
    }

    ghost predicate Valid()
      reads this
    {
      Now().OK() && nrules == 3 + |closed| && |rprec| == |rassoc| == nrules + 1
    }

    /** initialize_grammar and the first start_rule, with the given symbols named so far. */
    constructor (bp: nat, nsymbols: nat)
      requires 0 < bp <= nsymbols
      ensures Valid() && Now().Productions() == [Production(bp, [])] && steps == [Now().Productions()] && marks == []
      ensures this.nsymbols == nsymbols && nrules == 3 && rprec[3] == UNDEFINED
    {
      pitem := [0, 0, 0, 0];
      plhs, rprec, rassoc := [0, 0, 0, bp], [0, 0, 0, UNDEFINED], [Token, Token, Token, Token];
      nrules := 3;
      this.nsymbols := nsymbols;
      lastWasAction := false;
      closed, tail, steps, marks := [], [], [[Production(bp, [])]], [];
      new;
      assert Now().Productions() == [Production(bp, [])];
    }

    /** A symbol met for the first time. */
    method NewSymbol() returns (bp: nat)
      requires Valid()
      modifies `nsymbols
      ensures Valid() && nsymbols == bp == old(nsymbols) + 1 && Now().Written(bp)
    {
      nsymbols := nsymbols + 1;
      bp := nsymbols;
    }

    /** The shift of the open rule's items, which follow a 0 at z - 1, by one place: a 0 before them
        and the new symbol behind. */
    method MakeRoom(bp: nat, ghost z: nat)
      requires 1 < z <= |pitem| && pitem[z - 1] == 0 && forall k :: z <= k < |pitem| ==> pitem[k] != 0
      modifies `pitem
      ensures pitem == old(pitem)[..z] + [0] + old(pitem)[z..] + [bp]
    {
      hide Shifting;
      ghost var before, n := pitem, |pitem|;
      pitem := pitem + [0, 0];
      var bpp := |pitem| - 1;
      pitem := pitem[bpp := bp];
      bpp := bpp - 1;
      pitem := pitem[bpp := pitem[bpp - 1]];
      ShiftStart(before, bp);
      ShiftHere(before, pitem, n, bpp, bp);
      while pitem[bpp] != 0
        invariant z <= bpp <= n && |pitem| == n + 2 && pitem[bpp] == before[bpp - 1] &&
            Shifting(before, pitem, n, bpp, bp)
        decreases bpp
      {
        ShiftStep(before, pitem, n, bpp, bp);
        bpp := bpp - 1;
        pitem := pitem[bpp := pitem[bpp - 1]];
        ShiftHere(before, pitem, n, bpp, bp);
      }
      ShiftDone(before, pitem, n, bpp, bp);
    }

    /** The new rule takes the place of the open one, which moves up. */
    method MoveRule(bp: nat)
      requires |plhs| == |rprec| == |rassoc| == nrules + 1
      modifies `nrules, `plhs, `rprec, `rassoc
      ensures nrules == old(nrules) + 1
      ensures plhs == old(plhs)[..old(nrules)] + [bp] + old(plhs)[old(nrules)..]
      ensures rprec == old(rprec)[..old(nrules)] + [0] + old(rprec)[old(nrules)..]
      ensures rassoc == old(rassoc)[..old(nrules)] + [Token] + old(rassoc)[old(nrules)..]
    {
      nrules := nrules + 1;
      plhs := plhs + [plhs[nrules - 1]];
      plhs := plhs[nrules - 1 := bp];
      rprec := rprec + [rprec[nrules - 1]];
      rprec := rprec[nrules - 1 := 0];
      rassoc := rassoc + [rassoc[nrules - 1]];
      rassoc := rassoc[nrules - 1 := Token];
    }

    /** insert_empty_rule: a fresh symbol with an empty production of its own, numbered before the
        open rule, ends what has been read of the open rule; the precedence of the open rule moves
        with it. */
    method InsertEmptyRule()
      requires Valid()
      modifies this
      ensures Valid() && Now() == AfterInsert(old(Now()))
      ensures rprec == old(rprec)[..old(nrules)] + [0] + old(rprec)[old(nrules)..]
      ensures rassoc == old(rassoc)[..old(nrules)] + [Token] + old(rassoc)[old(nrules)..]
      ensures lastWasAction == old(lastWasAction)
    {
      hide Book.OK, Book.Productions, Flat;
      ghost var b := Now();
      InsertOK(b);
      BookShape(b);
      ghost var z := OpenFrom(b);
      nsymbols := nsymbols + 1;
      var bp := nsymbols;
      MakeRoom(bp, z);
      MoveRule(bp);
      ghost var c := AfterInsert(b);
      closed, tail, steps, marks := c.closed, c.tail, c.steps, c.marks;
    }

    /** add_symbol on a symbol of the right-hand side: an action before it is inside the rule. */
    method AddSymbol(bp: nat)
      requires Valid() && Now().Written(bp)
      modifies this
      ensures Valid() && !lastWasAction
      ensures !old(lastWasAction) ==> rprec == old(rprec) && rassoc == old(rassoc)
      ensures old(lastWasAction) ==>
                && rprec == old(rprec)[..old(nrules)] + [0] + old(rprec)[old(nrules)..]
                && rassoc == old(rassoc)[..old(nrules)] + [Token] + old(rassoc)[old(nrules)..]
      ensures var b := old(Now()); Now() == AfterSymbol(if old(lastWasAction) then AfterInsert(b) else b, bp)
    {
      ghost var b := Now();
      if lastWasAction {
        InsertEmptyRule();
        b := AfterInsert(b);
      }
      lastWasAction := false;
      SymbolOK(b, bp);
      pitem := pitem + [bp];
      ghost var c := AfterSymbol(b, bp);
      tail, steps := c.tail, c.steps;
    }

    /** copy_action, apart from the text of the action. */
    method AddAction()
      requires Valid()
      modifies this
      ensures Valid() && lastWasAction
      ensures Now() == if old(lastWasAction) then AfterInsert(old(Now())) else old(Now())
    {
      if lastWasAction {
        InsertEmptyRule();
      }
      lastWasAction := true;
    }

    /** end_rule and start_rule: an action at the end of a rule is the rule's own. */
    method NextRule(bp: nat)
      requires Valid() && Now().Written(bp)
      modifies this
      ensures Valid() && !lastWasAction && Now() == AfterRule(old(Now()), bp)
      ensures nrules == old(nrules) + 1 && rprec == old(rprec) + [UNDEFINED] && rassoc == old(rassoc) + [Token]
    {
      RuleOK(Now(), bp);
      ghost var c := AfterRule(Now(), bp);
      lastWasAction := false;
      pitem := pitem + [0];
      nrules := nrules + 1;
      plhs, rprec, rassoc := plhs + [bp], rprec + [UNDEFINED], rassoc + [Token];
      closed, tail, steps := c.closed, c.tail, c.steps;
    }

    /** The end_rule at the end of the grammar. */
    method Finish()
      requires Valid()
      modifies `pitem, `nrules, `lastWasAction
      ensures pitem == [0, 0, 0, 0] + Flat(closed + [tail]) && nrules == old(nrules) + 1
    {
      FlatSnoc(closed, tail);
      lastWasAction := false;
      pitem := pitem + [0];
      nrules := nrules + 1;
    }
  }

  /** The rules as read, empty ones included, generate from every written symbol exactly what the
      rules as written do. */
  lemma ReadingKeepsLanguage(b: Book, codes: map<nat, int>, X: nat, w: seq<Lexeme>)
    requires b.OK() && b.Written(X) && forall m :: m in b.marks ==> m.M !in codes
    ensures Derives(Cfg(b.steps[0], codes), X, w) <==> Derives(Cfg(b.Productions(), codes), X, w)
  {
    ChainSameLanguage(b.steps, b.marks, codes, X, w);
  }

  /** The open rule is the last of the productions. */
  lemma OpenRule(plhs: seq<nat>, closed: seq<seq<nat>>, tail: seq<nat>)
    requires |plhs| == 4 + |closed|
    ensures var P := RulesOf(plhs[3..], closed + [tail]); var n := |closed|;
            |P| == n + 1 && P[n] == Production(plhs[3 + n], tail) && P[..n] == RulesOf(plhs[3..], closed)
  {}

  lemma RulesMoved(plhs: seq<nat>, closed: seq<seq<nat>>, tail: seq<nat>, bp: nat)
    requires |plhs| == 4 + |closed|
    ensures var n := 3 + |closed|; var plhs' := plhs[..n] + [bp] + plhs[n..];
            && RulesOf(plhs'[3..], closed + [[]] + [tail + [bp]]) ==
                 RulesOf(plhs[3..], closed) + [Production(bp, [])] + [Production(plhs[n], tail + [bp])]
            && RulesOf(plhs[3..], closed + [tail]) == RulesOf(plhs[3..], closed) + [Production(plhs[n], tail)]
  {}

  lemma InsertedWithin(P: seq<Production>, m: Mark, n: nat)
    requires P != [] && Within(P, n) && m.M == n + 1 && m.i == |P| - 1
    ensures Within(P[..m.i] + [Production(m.M, [])] + [Production(P[m.i].lhs, P[m.i].rhs + [m.M])], n + 1)
  {
    forall p | p in P[..m.i]
      ensures p in P
    {
    }
    assert P[m.i] in P;
  }

  lemma ChainSnoc(steps: seq<seq<Production>>, marks: seq<Mark>, Q: seq<Production>, m: Mark)
    requires Chain(steps, marks) && StepAt(steps[|steps| - 1], Q, m)
    ensures Chain(steps + [Q], marks + [m])
  {}

  lemma FlatEnds(closed: seq<seq<nat>>)
    ensures closed != [] ==> Flat(closed) != [] && Flat(closed)[|Flat(closed)| - 1] == 0
  {}

  /** The insertion as a step on productions. */
  lemma Inserting(P: seq<Production>, Q: seq<Production>, m: Mark)
    requires P != [] && m.i == |P| - 1 && m.k == |P[m.i].rhs| && m.M > 0 && Within(P, m.M - 1)
    requires Q == P[..m.i] + [Production(m.M, [])] + [Production(P[m.i].lhs, P[m.i].rhs + [m.M])]
    ensures StepAt(P, Q, m)
  {
    assert P[m.i].rhs[..m.k] == P[m.i].rhs && P[m.i].rhs[m.k..] == [];
    assert Widened(P[m.i], m.k, m.M).rhs == P[m.i].rhs + [m.M];
    assert P[m.i + 1..] == [];
  }
}

/** A grammar without conflicts whose parser need not come to an end: A: A | 'x'. The one action of
    its final state reduces A to A, on any token but the end, and is in conflict with nothing. */
module LoopingGrammar {
  import opened Reachability
  import opened Grammar
  import opened Closure
  import opened LR0
  import opened Paths
  import opened GotoMap
  import opened Relations
  import opened Lalr
  import opened MkPar
  import opened Output
  import opened Machine
  import opened MachineStacks
  import Trials
  import LexemeQueue
  import opened Replay
  import Search
  import opened FollowTokens
  import opened Completeness
  import opened Reductions
  import LeftRecursion
  import Endings
  import opened Pipeline

  const X_CODE: int := 'x' as int

  /** Tokens: the end, error and 'x'; then the start symbol, and A. */
  const LOOP: Packed := Packed([-1, 4, 0, -2, 4, -3, 2, -4], [0, 0, 3, 4, 4], [0, 0, 1, 4, 6, 8], 3, 5,
      [0, 256, X_CODE, -1, 0])

  lemma LoopIsGrammar()
    ensures Values(LOOP) && LOOP.Rhs(3) == [4] && LOOP.Rhs(4) == [2]
  {
    assert LOOP.RuleShape(2) && LOOP.RuleShape(3) && LOOP.RuleShape(4);
  }

  /** A derives itself alone. */
  lemma LoopIsCyclic()
    ensures LOOP.WellFormed() && LeftRecursion.Cyclic(LOOP)
  {
    LoopIsGrammar();
    assert LeftRecursion.BecomesBy(LOOP, 3, 0, 4, 4);
    ReachRefl(LeftRecursion.UnitRel(LOOP), 4);
    assert ReachPlus(LeftRecursion.UnitRel(LOOP), 4, 4);
  }

  /** The items of its states. */
  ghost predicate Small(S: iset<nat>) {
    S <= iset{1, 4, 6} || S <= iset{2, 5} || S <= iset{7}
  }

  lemma WhatIsPredicted(i: nat, j: nat)
    requires ItemRel(LOOP)(i, j)
    ensures (i == 1 || i == 4) && (j == 4 || j == 6)
  {
    var r: nat :| 2 <= r < |LOOP.rlhs| && r < |LOOP.rrhs| && LOOP.rlhs[r] == LOOP.ritem[i] && LOOP.rrhs[r] == j;
    assert LOOP.ritem[i] >= 3;
    assert i == 1 || i == 4;
    assert r == 3 || r == 4;
  }

  lemma StartItems(A: Automaton)
    requires Canonical(LOOP, A)
    ensures |A.states| > 0 && ItemsOf(LOOP, A, 0) <= iset{1, 4, 6} && 4 in ItemsOf(LOOP, A, 0) &&
        6 in ItemsOf(LOOP, A, 0)
  {
    hide Packed.WellFormed, RowsOK, ClosureOf, ItemRel;
    var kernel := A.states[0].items;
    assert kernel == [1];
    ClosureIsClosed(LOOP, kernel);
    BothPredicted();
    assert 1 in ClosureOf(LOOP, kernel);
    forall i: nat, j: nat | i in iset{1, 4, 6} && ItemRel(LOOP)(i, j)
      ensures j in iset{1, 4, 6}
    {
      WhatIsPredicted(i, j);
    }
    ClosureIsLeast(LOOP, kernel, iset{1, 4, 6});
  }

  lemma BothPredicted()
    ensures ItemRel(LOOP)(1, 4) && ItemRel(LOOP)(1, 6)
  {
    assert LOOP.rlhs[3] == 4 && LOOP.rrhs[3] == 4 && LOOP.rlhs[4] == 4 && LOOP.rrhs[4] == 6;
    assert Predicted(LOOP, 4, 4) && Predicted(LOOP, 4, 6);
  }

  lemma KernelIsAll(A: Automaton, q: nat, S: iset<nat>)
    requires Canonical(LOOP, A) && q < |A.states| && (S == iset{2, 5} || S == iset{7}) &&
        forall j :: j in A.states[q].items ==> j in S
    ensures ItemsOf(LOOP, A, q) <= S
  {
    ClosureIsLeast(LOOP, A.states[q].items, S);
  }

  lemma {:induction false} StateIsSmall(A: Automaton, q: nat)
    requires Canonical(LOOP, A) && q < |A.states|
    ensures Small(ItemsOf(LOOP, A, q))
    decreases q
  {
    if q == 0 {
      StartItems(A);
    } else {
      assert EnteredEarlier(A.shifts, q);
      var p: nat :| p < q && p < |A.shifts| && q in A.shifts[p];
      var X := A.states[q].accessing;
      assert Goto(A, p, X, q);
      StateIsSmall(A, p);
      GotoItems(LOOP, A, p, X, q);
      assert KernelOK(LOOP, A.states[q]);
      var S := if X == 4 then iset{2, 5} else iset{7};
      forall j | j in A.states[q].items
        ensures j in S
      {
        assert MovedItem(LOOP, ItemsOf(LOOP, A, p), X, j);
      }
      KernelIsAll(A, q, S);
    }
  }

  /** A shift needs an item before a token, a reduction a finished one. */
  lemma ActionItem(A: Automaton, P: Precedence, la: seq<nat>, LA: seq<set<nat>>, q: nat, raw: seq<Action>, a: Action)
    requires Canonical(LOOP, A) && Covers(P, LOOP) && q < |A.states| && a in raw
    requires RawActions(LOOP, A, P, la, LA, q, raw)
    ensures a.code == Shift ==> 6 in ItemsOf(LOOP, A, q)
    ensures a.code == Reduce && a.number == 3 ==> 5 in ItemsOf(LOOP, A, q)
    ensures a.code == Reduce && a.number != 3 ==> a.number == 4 && 7 in ItemsOf(LOOP, A, q)
  {
    hide Canonical, ItemsOf, Goto;
    StateIsSmall(A, q);
    if IsShift(LOOP, A, P, q, a) {
      ShiftItem(A, q, a.symbol, a.number);
    } else {
      var k: nat :| k < |A.reductions[q]| && ReducesAs(A, P, la, LA, LOOP.ntokens, q, k, a);
      RuleItem(A, q, a.number);
    }
  }

  lemma ShiftItem(A: Automaton, q: nat, X: nat, n: nat)
    requires Canonical(LOOP, A) && q < |A.states| && Goto(A, q, X, n) && X < 3 && Small(ItemsOf(LOOP, A, q))
    ensures 6 in ItemsOf(LOOP, A, q)
  {
    GotoItems(LOOP, A, q, X, n);
    assert KernelOK(LOOP, A.states[n]);
    var j := A.states[n].items[0];
    assert j in A.states[n].items && j in Advance(LOOP, ItemsOf(LOOP, A, q), X);
    assert MovedItem(LOOP, ItemsOf(LOOP, A, q), X, j);
  }

  lemma RuleItem(A: Automaton, q: nat, r: nat)
    requires Canonical(LOOP, A) && q < |A.states| && r in A.reductions[q] && Small(ItemsOf(LOOP, A, q))
    ensures if r == 3 then 5 in ItemsOf(LOOP, A, q) else r == 4 && 7 in ItemsOf(LOOP, A, q)
  {
    assert RowsOK(LOOP, A.states, A.shifts, A.reductions, q);
    var i: nat :| i in ItemsOf(LOOP, A, q) && i < |LOOP.ritem| && LOOP.ritem[i] < 0 && LOOP.ritem[i] + r == 0;
  }

  /** Two actions on one token would have to be a shift and a reduction, or reductions by two rules. */
  lemma NoRivals(A: Automaton, P: Precedence, la: seq<nat>, LA: seq<set<nat>>, q: nat, raw: seq<Action>)
    requires Canonical(LOOP, A) && Covers(P, LOOP) && q < |A.states| && RawActions(LOOP, A, P, la, LA, q, raw)
    ensures forall i, j :: 0 <= i < j < |raw| ==> raw[i].symbol != raw[j].symbol
  {
    StateIsSmall(A, q);
    forall i, j | 0 <= i < j < |raw|
      ensures raw[i].symbol != raw[j].symbol
    {
      assert Before(raw[i], raw[j]);
      ActionItem(A, P, la, LA, q, raw, raw[i]);
      ActionItem(A, P, la, LA, q, raw, raw[j]);
    }
  }

  lemma LoopIsConflictFree(P: Precedence, T: Tables, m: Made, LA: seq<set<nat>>, raws: seq<seq<Action>>)
    requires Generated(LOOP, P, T, m, LA, raws)
    ensures ConflictFree(m)
  {
    hide Packed.WellFormed, Canonical, Setting, LookaheadsOK, TablesOK, TablesSound, RawActions, OnlyRule, Shaped;
    forall q: nat, p | q < |m.parser| && 0 <= p < |m.parser[q]|
      ensures m.parser[q][p].suppressed == 0
    {
      assert RowOK(LOOP, m.automaton, P, m.lookaheads, LA, T.final, q, raws[q], m.parser[q], m.defred[q]);
      NoRivals(m.automaton, P, m.lookaheads, LA, q, raws[q]);
      assert Head(raws[q], p) == p;
    }
  }

  /** The end token is a lookahead of a rule read in state 0. */
  lemma EndIsLookahead(m: Made, r: nat, q: nat) returns (k: nat)
    requires World(LOOP, m.automaton, m.gotos, m.nullable) && 3 <= r <= 4 && q < |m.automaton.states|
    requires Goto(m.automaton, 0, if r == 3 then 4 else 2, q) &&
        (if r == 3 then 5 else 7) in ItemsOf(LOOP, m.automaton, q)
    ensures k < |m.automaton.reductions[q]| && m.automaton.reductions[q][k] == r
    ensures Lookahead(LOOP, m.automaton, m.gotos, m.nullable, q, r, 0)
  {
    hide Canonical, GotosOK, Values, ItemsOf, Follows, Lookahead;
    var A, gs := m.automaton, m.gotos;
    LoopIsGrammar();
    GoalPlaced(LOOP, A, gs, m.nullable);
    FirstGoto(LOOP, A, gs);
    NumberIsGoto(LOOP, A, gs, 0);
    GoalFollowed(LOOP, A, gs, m.nullable, 0);
    var Xs := LOOP.Rhs(r);
    assert Xs[..0] == [] && Walks(A, 0, [], 0);
    assert WalksThrough(A, 0, Xs, q, 0);
    k := PhraseReduces(LOOP, A, gs, m.nullable, 0, r, q, 0);
  }

  /** So the rule is the default reduction of its state. */
  lemma IsDefault(P: Precedence, T: Tables, m: Made, LA: seq<set<nat>>, raws: seq<seq<Action>>, r: nat, q: nat)
    requires Generated(LOOP, P, T, m, LA, raws) && 3 <= r <= 4 && q < |m.automaton.states|
    requires Goto(m.automaton, 0, if r == 3 then 4 else 2, q) &&
        (if r == 3 then 5 else 7) in ItemsOf(LOOP, m.automaton, q)
    ensures q < |T.defred| && T.defred[q] == r - 2
  {
    hide Packed.WellFormed, Canonical, Setting, TablesSound, RawActions, Shaped, Values, Lookahead, ItemsOf, Goto,
        StateReads;
    var k := EndIsLookahead(m, r, q);
    assert RowOK(LOOP, m.automaton, P, m.lookaheads, LA, T.final, q, raws[q], m.parser[q], m.defred[q]);
    EndInRow(P, T, m, LA, raws[q], q, k);
    RowHasOnly(m.automaton, P, m.lookaheads, LA, q, raws[q], q == T.final, m.parser[q], r);
  }

  lemma EndInRow(P: Precedence, T: Tables, m: Made, LA: seq<set<nat>>, raw: seq<Action>, q: nat, k: nat)
    requires Covers(P, LOOP) && LookaheadsOK(LOOP, m.automaton, m.gotos, m.nullable, m.lookaheads, m.laRuleno, LA)
    requires Canonical(LOOP, m.automaton) && q < |m.automaton.states| && k < |m.automaton.reductions[q]|
    requires RawActions(LOOP, m.automaton, P, m.lookaheads, LA, q, raw)
    requires Lookahead(LOOP, m.automaton, m.gotos, m.nullable, q, m.automaton.reductions[q][k], 0)
    ensures m.automaton.reductions[q][k] < |LOOP.rlhs| && ReduceAction(P, 0, m.automaton.reductions[q][k]) in raw
  {
    hide Canonical, Lookahead;
    RuleOfReduction(LOOP, m.automaton, q, k);
    var a := ReduceAction(P, 0, m.automaton.reductions[q][k]);
    assert ReducesAs(m.automaton, P, m.lookaheads, LA, LOOP.ntokens, q, k, a);
  }

  lemma RowHasOnly(A: Automaton, P: Precedence, la: seq<nat>, LA: seq<set<nat>>, q: nat, raw: seq<Action>, final: bool,
                   row: seq<Action>, r: nat)
    requires Canonical(LOOP, A) && Covers(P, LOOP) && q < |A.states| && 3 <= r <= 4
    requires RawActions(LOOP, A, P, la, LA, q, raw) && Judged(raw, final, |raw|, row)
    requires (if r == 3 then 5 else 7) in ItemsOf(LOOP, A, q) && ReduceAction(P, 0, r) in raw
    ensures OnlyRule(row, r) && forall s: nat :: OnlyRule(row, s) ==> s == r
  {
    hide Packed.WellFormed, Canonical, RawActions, ItemsOf;
    StateIsSmall(A, q);
    NoRivals(A, P, la, LA, q, raw);
    forall p | 0 <= p < |row|
      ensures row[p].suppressed == 0 && row[p].code == Reduce && row[p].number == r
    {
      assert Head(raw, p) == p;
      ActionItem(A, P, la, LA, q, raw, raw[p]);
    }
    var p :| 0 <= p < |raw| && raw[p] == ReduceAction(P, 0, r);
    assert row[p] in row && row[p].symbol == 0;
  }

  /** Where the parser is after one token: over A, which it will reduce to itself. */
  lemma FinalCircles(T: Tables, q: nat, key: nat)
    requires Shaped(T) && q < |T.defred| && T.defred[q] == 1 && 1 < |T.len| && T.len[1] == 1 && T.lhs[1] == 0 &&
        T.final == q && key > 0
    ensures Circles(T, false, 0, q, key)
  {
    assert [0, q][..1] == [0] && [0] + [q] == [0, q] == [] + [0, q];
    assert Uncovered(T, [0, q], key, 1) == Some([0] + [q]);
    assert ReducesBy(T, false, key, [0, q], [0, q], 1);
    assert CirclesBy(T, false, 0, q, key, [[0, q], [0, q]], []);
  }

  /** The states over 'x' and over A, and what they reduce by. */
  lemma LoopStates(P: Precedence, T: Tables, m: Made, LA: seq<set<nat>>, raws: seq<seq<Action>>)
    returns (x: nat, a: nat)
    requires Generated(LOOP, P, T, m, LA, raws)
    ensures Goto(m.automaton, 0, 2, x) && T.final == a && Goto(m.automaton, 0, 4, a)
    ensures x < |T.defred| && a < |T.defred| && T.defred[0] == 0 && T.defred[x] == 2 && T.defred[a] == 1
    ensures |T.lhs| == |T.len| == 3 && T.lhs[1] == T.lhs[2] == 0 && T.len[1] == T.len[2] == 1
  {
    hide Canonical, Setting, RawActions, Values, ItemsOf, Goto, StateReads, ParserOK, StateSound, Packed.WellFormed;
    LoopIsGrammar();
    StartItems(m.automaton);
    x := GotoExists(LOOP, m.automaton, 0, 6);
    a := GotoExists(LOOP, m.automaton, 0, 4);
    GotoUnique(LOOP, m.automaton, 0, 4, a, T.final);
    InStates(LOOP, m.automaton, 0, 2, x);
    InStates(LOOP, m.automaton, 0, 4, a);
    IsDefault(P, T, m, LA, raws, 4, x);
    IsDefault(P, T, m, LA, raws, 3, a);
    NoDefaultAtStart(P, T, m, LA, raws);
  }

  lemma InStates(g: Packed, A: Automaton, p: nat, X: nat, q: nat)
    requires Goto(A, p, X, q)
    ensures q < |A.states|
  {}

  /** State 0 reduces by no rule. */
  lemma NoRuleAtStart(A: Automaton, P: Precedence, la: seq<nat>, LA: seq<set<nat>>, raw: seq<Action>, final: bool,
                      row: seq<Action>, r: nat)
    requires Canonical(LOOP, A) && Covers(P, LOOP) && RawActions(LOOP, A, P, la, LA, 0, raw) &&
        Judged(raw, final, |raw|, row)
    ensures !OnlyRule(row, r)
  {
    hide Packed.WellFormed, RawActions, RowsOK, ItemsOf;
    StartItems(A);
    if OnlyRule(row, r) {
      var a :| a in row && a.suppressed <= 1 && a.symbol != 1;
      var p :| 0 <= p < |row| && row[p] == a;
      ActionItem(A, P, la, LA, 0, raw, raw[p]);
    }
  }

  lemma NoDefaultAtStart(P: Precedence, T: Tables, m: Made, LA: seq<set<nat>>, raws: seq<seq<Action>>)
    requires Generated(LOOP, P, T, m, LA, raws)
    ensures |T.defred| > 0 && T.defred[0] == 0
  {
    hide Packed.WellFormed, Canonical, Setting, TablesSound, Shaped, Values, StateReads, LookaheadsOK, RawActions,
        Judged, OnlyRule;
    StartItems(m.automaton);
    assert RowOK(LOOP, m.automaton, P, m.lookaheads, LA, T.final, 0, raws[0], m.parser[0], m.defred[0]);
    NoRuleAtStart(m.automaton, P, m.lookaheads, LA, raws[0], 0 == T.final, m.parser[0], m.defred[0]);
  }

  /** One token is shifted and reduced to A; the next one is not the end. */
  lemma TwoSteps(T: Tables, input: nat -> Lexeme, x: nat, a: nat, yes: nat -> bool)
    requires Shaped(T) && NoForks(T) && x < |T.defred| && a < |T.defred| && T.defred[0] == 0 && T.defred[x] == 2
    requires |T.lhs| == |T.len| == 3 && T.lhs[2] == 0 && T.len[2] == 1 && T.final == a
    requires Offers(T, 0, X_CODE, Trials.DoShift(x)) && input(0).code == input(1).code == X_CODE
    ensures var p := PlainRun(T, input, LexemeQueue.Meaning(Start()), yes, 0, 2);
            p.status.Running? && p.here.pos == 1 && p.here.stack.ss == [0, a]
  {
    hide PlainRun, Trials.PlainStep, NoForks, Offers;
    var k := Search.Origin();
    Search.StartMeans();
    var p := LexemeQueue.Meaning(Start());
    OfferTaken(T, input, k, Trials.DoShift(x));
    var l := Trials.Onward(T, input, k).spot;
    assert l.stack.ss == [0, x] && l.pos == 1 && |l.stack.vals| == 1;
    assert Trials.Decide(T, input, l) == Trials.DoReduce(2);
    var st := Reduction(T, l.stack, 2);
    assert l.stack.ss[..1] + [a] == [0, a];
    assert Trials.Onward(T, input, l) == Trials.Next(Trials.Spot(st.stack, 1));
    assert Trials.LeadsIn(T, input, Trials.Spot(st.stack, 1), Trials.Spot(st.stack, 1), 0);
    assert Trials.LeadsIn(T, input, l, Trials.Spot(st.stack, 1), 1);
    assert Trials.LeadsIn(T, input, k, Trials.Spot(st.stack, 1), 2);
    QuietRun(T, input, p, Trials.Spot(st.stack, 1), 2, yes, 0);
  }

  /** On an input that starts with two of its tokens, its parser reduces A to A for ever. */
  lemma NeverEnds(P: Precedence, T: Tables, m: Made, LA: seq<set<nat>>, raws: seq<seq<Action>>, input: nat -> Lexeme,
                  yes: nat -> bool, n: nat)
    requires Generated(LOOP, P, T, m, LA, raws) && input(0).code == input(1).code == X_CODE
    ensures Shaped(T) && Run(T, input, yes, n).status.Running?
  {
    hide Packed.WellFormed, Canonical, Setting, LookaheadsOK, TablesOK, TablesSound, ParserOK, Shaped, NoForks, Goto,
        Circles, Run,
        PlainRun;
    GeneratedFacts(LOOP, P, T, m, LA, raws);
    LoopIsConflictFree(P, T, m, LA, raws);
    GeneratedObeys(LOOP, P, T, m, LA, raws);
    var x, a := LoopStates(P, T, m, LA, raws);
    assert TokenWith(LOOP, 2, X_CODE);
    assert Offers(T, 0, X_CODE, Trials.DoShift(x));
    TwoSteps(T, input, x, a, yes);
    Endings.RunStage(LOOP, m.automaton, T, input, yes, 2);
    FinalCircles(T, a, X_CODE);
    var c := Run(T, input, yes, 2);
    assert Endings.Caught(T, input, c);
    Endings.CaughtForever(LOOP, m.automaton, T, input, yes, 2, n);
  }

  /** Generating its parser: no conflict is found, and no end on "x x", whatever follows. */
  method GenerateLoop(P: Precedence, input: nat -> Lexeme, yes: nat -> bool) returns (T: Tables, m: Made)
    requires Covers(P, LOOP) && input(0).code == input(1).code == X_CODE
    ensures ConflictFree(m)
    ensures Shaped(T) && forall n: nat :: Run(T, input, yes, n).status.Running?
  {
    LoopIsGrammar();
    ghost var LA, raws;
    T, m, LA, raws := Generate(LOOP, P);
    LoopIsConflictFree(P, T, m, LA, raws);
    GeneratedFacts(LOOP, P, T, m, LA, raws);
    forall n: nat
      ensures Run(T, input, yes, n).status.Running?
    {
      NeverEnds(P, T, m, LA, raws, input, yes, n);
    }
  }
}

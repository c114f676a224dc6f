/** A grammar with a late winner: S: A 'x' | B 'x' | 'y' 'x'; A: 'y'; B: 'y'. Let 'x' have a precedence
    and associate to the left, the rule of A none, and the rule of B a higher one. After 'y' and before
    'x' the reduction to B wins over the shift, and is still never made. */
module LosingGrammar {
  import opened Grammar
  import opened Closure
  import opened LR0
  import opened Paths
  import opened GotoMap
  import opened Relations
  import opened Lalr
  import opened MkPar
  import opened Output
  import opened Machine
  import opened MachineStacks
  import Trials
  import opened FollowTokens
  import opened Completeness
  import opened Pipeline
  import LateWinners

  const X_CODE: int := 'x' as int

  /** Tokens: the end, error, 'x' and 'y'; then the start symbol, S, A and B. */
  const LOSING: Packed := Packed([-1, 5, 0, -2, 6, 2, -3, 7, 2, -4, 3, 2, -5, 3, -6, 3, -7], [0, 0, 4, 5, 5, 5, 6, 7],
                                 [0, 0, 1, 4, 7, 10, 13, 15, 17], 4, 8, [0, 256, X_CODE, 'y' as int, -1, 0, 1, 2])

  const NONE: Assoc := MkPar.Token

  /** Precedences 1 for 'x' and the rules that end in it, 2 for the rule of B. */
  const RANKS: Precedence := Precedence([0, 0, 1, 0, 0, 0, 0, 0], [NONE, NONE, Left, NONE, NONE, NONE, NONE, NONE],
                                        [0, 0, 0, 1, 1, 1, 0, 2], [NONE, NONE, NONE, Left, Left, Left, NONE, Left])

  lemma Shape(r: nat)
    requires 2 <= r < 8
    ensures LOSING.RuleShape(r)
  {}

  lemma LosingIsWellFormed()
    ensures LOSING.WellFormed()
  {
    hide Packed.RuleShape;
    forall r: nat | 2 <= r < 8
      ensures LOSING.RuleShape(r)
    {
      Shape(r);
    }
  }

  lemma CodesDiffer(s: nat, t: nat)
    requires s < t < 4
    ensures LOSING.value[s] != LOSING.value[t]
  {}

  lemma LosingIsGrammar()
    ensures Values(LOSING) && Covers(RANKS, LOSING) && LOSING.Rhs(6) == [3] && LOSING.Rhs(7) == [3]
  {
    hide Packed.WellFormed;
    LosingIsWellFormed();
    forall s: nat, t: nat | s < t < 4
      ensures LOSING.value[s] != LOSING.value[t]
    {
      CodesDiffer(s, t);
    }
  }

  lemma StartPredicts()
    ensures ItemRel(LOSING)(1, 4) && ItemRel(LOSING)(1, 7) && ItemRel(LOSING)(1, 10)
    ensures ItemRel(LOSING)(4, 13) && ItemRel(LOSING)(7, 15)
  {
    var g := LOSING;
    assert g.rlhs[3] == 5 && g.rrhs[3] == 4 && g.rlhs[4] == 5 && g.rrhs[4] == 7 && g.rlhs[5] == 5 && g.rrhs[5] == 10;
    assert g.rlhs[6] == 6 && g.rrhs[6] == 13 && g.rlhs[7] == 7 && g.rrhs[7] == 15;
    assert Predicted(g, 5, 4) && Predicted(g, 5, 7) && Predicted(g, 5, 10) && Predicted(g, 6, 13) &&
        Predicted(g, 7, 15);
  }

  lemma StartItems(A: Automaton)
    requires Canonical(LOSING, A)
    ensures |A.states| > 0 && forall i :: i in {1, 4, 7, 10, 13, 15} ==> i in ItemsOf(LOSING, A, 0)
  {
    hide Packed.WellFormed, RowsOK, ClosureOf, ItemRel;
    assert A.states[0].items == [1];
    ClosureIsClosed(LOSING, A.states[0].items);
    StartPredicts();
  }

  /** After 'y' nothing is predicted: the items are those read over 'y'. */
  lemma ItemsAfterY(A: Automaton, q: nat)
    requires Canonical(LOSING, A) && Goto(A, 0, 3, q)
    ensures q < |A.states| && ItemsOf(LOSING, A, q) <= iset{11, 14, 16}
  {
    GotoItems(LOSING, A, 0, 3, q);
    forall j | j in A.states[q].items
      ensures j in iset{11, 14, 16}
    {
      assert MovedItem(LOSING, ItemsOf(LOSING, A, 0), 3, j);
    }
    ClosureIsLeast(LOSING, A.states[q].items, iset{11, 14, 16});
  }

  /** The state after 'y' has items before 'x', and at the end of the rules of A and B. */
  lemma AfterY(A: Automaton) returns (q: nat)
    requires Canonical(LOSING, A)
    ensures Goto(A, 0, 3, q) && q < |A.states| && 11 in ItemsOf(LOSING, A, q) && 14 in ItemsOf(LOSING, A, q)
    ensures 16 in ItemsOf(LOSING, A, q)
  {
    hide RowsOK, ClosureOf;
    LosingIsGrammar();
    StartItems(A);
    q := GotoExists(LOSING, A, 0, 10);
    var r := GotoExists(LOSING, A, 0, 13);
    var s := GotoExists(LOSING, A, 0, 15);
    GotoUnique(LOSING, A, 0, 3, q, r);
    GotoUnique(LOSING, A, 0, 3, q, s);
    ItemsAfterY(A, q);
  }

  /** 'x' follows A, and B: it is a lookahead of their rules. */
  lemma XIsLookahead(A: Automaton, gs: Gotos, nullable: seq<bool>, q: nat, r: nat) returns (k: nat)
    requires World(LOSING, A, gs, nullable) && Goto(A, 0, 3, q) && q < |A.states| && 6 <= r <= 7
    requires (if r == 6 then 14 else 16) in ItemsOf(LOSING, A, q)
    ensures k < |A.reductions[q]| && A.reductions[q][k] == r && Lookahead(LOSING, A, gs, nullable, q, r, 2)
  {
    hide Canonical, GotosOK, Values, ItemsOf, Lookahead, Follows, ReadBy;
    LosingIsGrammar();
    StartItems(A);
    WorldFacts(LOSING, A, gs, nullable);
    var p := GotoExists(LOSING, A, 0, if r == 6 then 4 else 7);
    InStates(A, 0, r, p);
    var u := GotoExists(LOSING, A, p, if r == 6 then 5 else 8);
    var n := TransitionNumber(LOSING, A, gs, 0, r, p);
    NextFollowed(LOSING, A, gs, nullable, n, 0, r, p, 2);
    var Xs := LOSING.Rhs(r);
    assert Xs[..0] == [] && Walks(A, 0, [], 0);
    assert WalksThrough(A, 0, Xs, q, 0);
    k := PhraseReduces(LOSING, A, gs, nullable, n, r, q, 2);
  }

  lemma InStates(A: Automaton, p: nat, X: nat, q: nat)
    requires Goto(A, p, X, q)
    ensures q < |A.states|
  {}

  /** The rules complete after 'y'. */
  lemma RulesAfterY(A: Automaton, q: nat, r: nat)
    requires Canonical(LOSING, A) && Goto(A, 0, 3, q) && r in A.reductions[q]
    ensures r == 6 || r == 7
  {
    ItemsAfterY(A, q);
    assert RowsOK(LOSING, A.states, A.shifts, A.reductions, q);
    var i: nat :| i in ItemsOf(LOSING, A, q) && i < |LOSING.ritem| && LOSING.ritem[i] < 0 && LOSING.ritem[i] + r == 0;
  }

  /** On 'x' the state after 'y' can shift, reduce to A and reduce to B, and that is all. */
  ghost predicate ThreeOnX(raw: seq<Action>, n: nat) {
    && ShiftAction(RANKS, 2, n) in raw && ReduceAction(RANKS, 2, 6) in raw && ReduceAction(RANKS, 2, 7) in raw
    && forall a :: a in raw && a.symbol == 2 && a.code == Reduce ==>
        a == ReduceAction(RANKS, 2, 6) || a == ReduceAction(RANKS, 2, 7)
  }

  lemma RowAfterY(T: Tables, m: Made, LA: seq<set<nat>>, raws: seq<seq<Action>>, q: nat) returns (n: nat)
    requires Generated(LOSING, RANKS, T, m, LA, raws) && Goto(m.automaton, 0, 3, q) && q < |m.automaton.states|
    requires 11 in ItemsOf(LOSING, m.automaton, q) && 14 in ItemsOf(LOSING, m.automaton, q)
    requires 16 in ItemsOf(LOSING, m.automaton, q)
    ensures q < |raws| && Ordered(raws[q]) && ThreeOnX(raws[q], n)
  {
    hide Packed.WellFormed, Canonical, Setting, TablesSound, TablesOK, Values, Lookahead, ItemsOf, Goto, Judged,
        OnlyRule;
    var A := m.automaton;
    n := GotoExists(LOSING, A, q, 11);
    var k := XIsLookahead(A, m.gotos, m.nullable, q, 6);
    var l := XIsLookahead(A, m.gotos, m.nullable, q, 7);
    assert RowOK(LOSING, A, RANKS, m.lookaheads, LA, T.final, q, raws[q], m.parser[q], m.defred[q]);
    assert IsShift(LOSING, A, RANKS, q, ShiftAction(RANKS, 2, n));
    assert ReducesAs(A, RANKS, m.lookaheads, LA, LOSING.ntokens, q, k, ReduceAction(RANKS, 2, 6));
    assert ReducesAs(A, RANKS, m.lookaheads, LA, LOSING.ntokens, q, l, ReduceAction(RANKS, 2, 7));
    forall a | a in raws[q] && a.symbol == 2 && a.code == Reduce
      ensures a == ReduceAction(RANKS, 2, 6) || a == ReduceAction(RANKS, 2, 7)
    {
      var j: nat :| j < |A.reductions[q]| && ReducesAs(A, RANKS, m.lookaheads, LA, LOSING.ntokens, q, j, a);
      RulesAfterY(A, q, a.number);
    }
  }

  /** In such a row the reduction to B is a late winner. */
  lemma RowHasWinner(raw: seq<Action>, final: bool, n: nat) returns (h: nat, k: nat, p: nat)
    requires Ordered(raw) && ThreeOnX(raw, n)
    ensures LateWinner(raw, final, h, p, k) && raw[p] == ReduceAction(RANKS, 2, 7)
  {
    h :| h < |raw| && raw[h] == ShiftAction(RANKS, 2, n);
    k :| k < |raw| && raw[k] == ReduceAction(RANKS, 2, 6);
    p :| p < |raw| && raw[p] == ReduceAction(RANKS, 2, 7);
    assert h < k < p by {
      assert Before(raw[h], raw[k]) && Before(raw[k], raw[p]);
    }
    if h > 0 {
      assert Before(raw[h - 1], raw[h]);
    }
    OrderedRuns(raw, h, k);
    OrderedRuns(raw, h, p);
    if p + 1 < |raw| {
      assert Before(raw[p], raw[p + 1]) && raw[p + 1] in raw;
    }
    forall j: nat | j < p && SameRun(raw, h, j)
      ensures !Beats(raw[h], raw[j])
    {
      HeadOfRun(raw, h, j);
      assert Before(raw[h], raw[j]) && raw[j] in raw && Before(raw[j], raw[p]);
    }
  }

  /** Generating its parser: the reduction to B wins, and is what the parser does at no spot there. */
  method GenerateLosing() returns (T: Tables, m: Made, ghost q: nat, ghost p: nat)
    ensures Shaped(T) && q < |m.parser| && p < |m.parser[q]|
    ensures m.parser[q][p].suppressed == 0 && m.parser[q][p].symbol == 2 && m.parser[q][p].number == 7
    ensures forall input: nat -> Lexeme, spot: Trials.Spot ::
              Trials.Top(spot.stack) == q && Norm(input(spot.pos).code) == X_CODE ==>
              Trials.Decide(T, input, spot) != Performing(m.parser[q][p])
  {
    hide TablesOK, TablesSound, ParserOK, Values, LookaheadsOK, Setting, Packed.WellFormed, LateWinner, Canonical,
        Shaped;
    LosingIsGrammar();
    ghost var LA, raws;
    T, m, LA, raws := Generate(LOSING, RANKS);
    q := AfterY(m.automaton);
    ghost var n := RowAfterY(T, m, LA, raws, q);
    ghost var h, k;
    h, k, p := RowHasWinner(raws[q], q == T.final, n);
    WinnerStands(T, m, LA, raws, q, h, p, k);
    forall input: nat -> Lexeme, spot: Trials.Spot |
      Trials.Top(spot.stack) == q && Norm(input(spot.pos).code) == X_CODE
      ensures Trials.Decide(T, input, spot) != Performing(m.parser[q][p])
    {
      assert TokenWith(LOSING, 2, X_CODE);
      LateWinners.TakenExactly(LOSING, m.automaton, RANKS, m.lookaheads, LA, raws, m.parser, m.defred, T, input, spot,
          p);
    }
  }

  lemma WinnerStands(T: Tables, m: Made, LA: seq<set<nat>>, raws: seq<seq<Action>>, q: nat, h: nat, p: nat, k: nat)
    requires Generated(LOSING, RANKS, T, m, LA, raws) && q < |raws| && LateWinner(raws[q], q == T.final, h, p, k)
    ensures q < |m.parser| && p < |m.parser[q]| && m.parser[q][p] == raws[q][p].(suppressed := 0)
  {
    hide TablesOK, TablesSound, Values, LookaheadsOK, Setting, Packed.WellFormed, Canonical, Shaped, OnlyRule,
        RawActions;
    var raw := raws[q];
    assert RowOK(LOSING, m.automaton, RANKS, m.lookaheads, LA, T.final, q, raw, m.parser[q], m.defred[q]);
    HeadOfRun(raw, k, p);
    StandingBesideConflict(raw, q == T.final, m.parser[q], h, p, k);
  }
}

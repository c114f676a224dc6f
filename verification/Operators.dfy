/** mkpar.c and skeleton.c together: the precedences and associativities of binary operators decide how
    the trees of the generated parser nest. */
module Operators {
  import opened Grammar
  import opened LR0
  import opened Paths
  import opened GotoMap
  import opened Relations
  import opened Lalr
  import opened MkPar
  import opened ConflictTable
  import opened TokenActions
  import opened ActionRows
  import opened Output
  import opened Machine
  import opened MachineStacks
  import Trials
  import opened FollowTokens
  import opened Completeness
  import Search
  import Endings
  import Invariants
  import LeftRecursion
  import Pipeline
  import FrontEnd
  import PackGrammar
  import Defs

  // What the tables offer.

  lemma {:induction false} ShiftPlace(row: seq<Action>, n: nat, t: nat) returns (p: nat)
    requires n <= |row| && ShiftOf(row, n, t) != 0
    ensures p < n && row[p].symbol == t && row[p].suppressed == 0 && row[p].code == Shift
    ensures row[p].number == ShiftOf(row, n, t)
  {
    p := n - 1;
    if !(row[p].symbol == t && row[p].suppressed == 0 && row[p].code == Shift) {
      p := ShiftPlace(row, n - 1, t);
    }
  }

  lemma {:induction false} ReducePlace(row: seq<Action>, n: nat, t: nat) returns (p: nat)
    requires n <= |row| && ReduceOf(row, n, t, 0) != 0
    ensures p < n && row[p].symbol == t && row[p].suppressed == 0 && row[p].code == Reduce
    ensures row[p].number == ReduceOf(row, n, t, 0)
  {
    p := n - 1;
    if !(row[p].symbol == t && row[p].suppressed == 0 && row[p].code == Reduce && row[p].number != 0) {
      p := ReducePlace(row, n - 1, t);
    }
  }

  /** Action p of the row is on token t, was not removed, and is what a performs. */
  ghost predicate Unremoved(row: seq<Action>, p: nat, t: nat, a: Trials.Action) {
    p < |row| && row[p].symbol == t && row[p].suppressed <= 1 && a == Performing(row[p])
  }

  /** What a state without a default reduction offers on token t was not removed from its row. */
  lemma OfferedInRow(g: Packed, A: Automaton, T: Tables, q: nat, row: seq<Action>, t: nat, key: nat, a: Trials.Action)
    returns (p: nat)
    requires NaturalCodes(g) && Shaped(T) && q < |T.defred| && T.defred[q] == 0 && StateReads(g, row, 0, T, q)
    requires RowFacts(row, g.ntokens) && Pipeline.RowFits(g, A, q, row) && TokenWith(g, t, key) && Offers(T, q, key, a)
    ensures Unremoved(row, p, t, a)
  {
    hide ShiftOf, ReduceOf, AnyConflict, RowFacts, StateReads, NaturalCodes, Pipeline.RowFits, Peek, HasEntry;
    EntryOfToken(g, row, 0, t, key);
    EntryOfToken(g, row, 1, t, key);
    ShiftHit(g, row, T, q, t, key);
    ReduceHit(g, row, T, q, t, key);
    if Peek(T, T.cindex, q, key).Some? {
      var e := Peek(T, T.cindex, q, key).value;
      var j: nat :| IsAlternative(T, e, j, a);
      p := ListedInRow(g, A, T, q, row, t, key, e, a, j);
    } else if Peek(T, T.sindex, q, key).Some? {
      p := ShiftPlace(row, |row|, t);
    } else {
      p := ReducePlace(row, |row|, t);
    }
  }

  lemma ShiftHit(g: Packed, row: seq<Action>, T: Tables, q: nat, t: nat, key: nat)
    requires T.WellSized() && q < |T.sindex| && q < |T.rindex| && q < |T.cindex|
    requires StateReads(g, row, 0, T, q) && TokenWith(g, t, key)
    ensures var x := Peek(T, T.sindex, q, key);
            x.Some? ==> HasEntry(g, row, 0, 0, key) && x.value == ShiftOf(row, |row|, t)
  {
    hide ShiftOf, ReduceOf, HasEntry, Kept, AnyConflict;
    assert TokenReads(row, 0, T, q, t, key);
  }

  lemma ReduceHit(g: Packed, row: seq<Action>, T: Tables, q: nat, t: nat, key: nat)
    requires T.WellSized() && q < |T.sindex| && q < |T.rindex| && q < |T.cindex|
    requires StateReads(g, row, 0, T, q) && TokenWith(g, t, key)
    ensures var x := Peek(T, T.rindex, q, key);
            x.Some? ==> HasEntry(g, row, 0, 1, key) && x.value == ReduceOf(row, |row|, t, 0) - 2
  {
    hide ShiftOf, ReduceOf, HasEntry, Kept, AnyConflict;
    assert TokenReads(row, 0, T, q, t, key);
  }

  /** An alternative of the list comes from an action in conflict. */
  lemma ListedInRow(g: Packed, A: Automaton, T: Tables, q: nat, row: seq<Action>, t: nat, key: nat, e: nat,
                    a: Trials.Action, j: nat) returns (p: nat)
    requires NaturalCodes(g) && Shaped(T) && q < |T.defred| && StateReads(g, row, 0, T, q)
    requires RowFacts(row, g.ntokens) && Pipeline.RowFits(g, A, q, row) && TokenWith(g, t, key)
    requires Peek(T, T.cindex, q, key) == Some(e) && IsAlternative(T, e, j, a)
    ensures Unremoved(row, p, t, a)
  {
    hide StateReads, NaturalCodes, Decode, ListOf, ReduceLeads, Alternatives, AnyConflict;
    ConflictsDecode(g, row, T, q, t, key);
    NumbersFit(row, g.ntokens);
    ListIsAlternatives(row, |row|, t);
    p := Pipeline.ListElement(row, |row|, t, j);
    PlaceInTable(T, e, j);
  }

  lemma NumbersFit(row: seq<Action>, ntokens: nat)
    requires RowFacts(row, ntokens)
    ensures forall p :: 0 <= p < |row| && row[p].code == Reduce ==> row[p].number >= 2
  {
    forall p | 0 <= p < |row| && row[p].code == Reduce
      ensures row[p].number >= 2
    {
      assert row[p] in row;
    }
  }

  /** What the generator made of state q. */
  lemma RowOf(g: Packed, P: Precedence, T: Tables, m: Pipeline.Made, LA: seq<set<nat>>, raws: seq<seq<Action>>, q: nat)
    requires Pipeline.Generated(g, P, T, m, LA, raws) && q < |m.automaton.states|
    ensures NaturalCodes(g) && Shaped(T) && q < |T.defred| && q < |raws| && q < |m.parser| && q < |m.defred|
    ensures Ordered(raws[q]) && Judged(raws[q], q == T.final, |raws[q]|, m.parser[q])
    ensures Covers(P, g) && RawActions(g, m.automaton, P, m.lookaheads, LA, q, raws[q])
    ensures RowFacts(m.parser[q], g.ntokens) && Pipeline.RowFits(g, m.automaton, q, m.parser[q])
    ensures StateReads(g, m.parser[q], m.defred[q], T, q) && T.defred[q] == DefaultOut(m.defred[q])
    ensures m.defred[q] > 0 ==> OnlyRule(m.parser[q], m.defred[q])
    ensures T.defred[q] == 0 ==> m.defred[q] == 0
  {
    hide Canonical, GotosOK, Packed.WellFormed, TablesSound, Judged, OnlyRule, SlotsOK, LookaheadsOK, RowFacts,
        Pipeline.RowFits, StateReads;
    assert RowOK(g, m.automaton, P, m.lookaheads, LA, T.final, q, raws[q], m.parser[q], m.defred[q]);
    var raw, row, final := raws[q], m.parser[q], q == T.final;
    Pipeline.RowIsReady(g, m.automaton, P, m.lookaheads, LA, final, q, raw, row);
    Pipeline.RowIsFit(g, m.automaton, P, m.lookaheads, LA, final, q, raw, row);
    Pipeline.DefaultFits(g, m.automaton, q, row, m.defred[q]);
  }

  /** Of rule r and token o both with a precedence, that of r is higher, or equal and not to the right. */
  ghost predicate ReductionWins(P: Precedence, r: nat, o: nat) {
    && o < |P.symbolPrec| && o < |P.symbolAssoc| && r < |P.rulePrec| && P.symbolPrec[o] > 0 && P.rulePrec[r] > 0
    && (P.symbolPrec[o] < P.rulePrec[r] || (P.symbolPrec[o] == P.rulePrec[r] && P.symbolAssoc[o] != Right))
  }

  /** That of o is higher, or equal and to the right. */
  ghost predicate ShiftWins(P: Precedence, r: nat, o: nat) {
    && o < |P.symbolPrec| && o < |P.symbolAssoc| && r < |P.rulePrec| && P.symbolPrec[o] > 0 && P.rulePrec[r] > 0
    && (P.symbolPrec[o] > P.rulePrec[r] || (P.symbolPrec[o] == P.rulePrec[r] && P.symbolAssoc[o] == Right))
  }

  ghost predicate CompleteAt(A: Automaton, q: nat, r: nat) {
    q < |A.states| && q < |A.reductions| && r in A.reductions[q]
  }

  /** Token o wins against rule r, and against every rule with a precedence that is complete where r is. */
  ghost predicate ShiftHolds(P: Precedence, A: Automaton, r: nat, o: nat) {
    && ShiftWins(P, r, o)
    && forall q: nat, s: nat :: CompleteAt(A, q, r) && CompleteAt(A, q, s) && s < |P.rulePrec| && P.rulePrec[s] > 0 ==>
        ShiftWins(P, s, o)
  }

  lemma RawReduce(g: Packed, P: Precedence, T: Tables, m: Pipeline.Made, LA: seq<set<nat>>, raws: seq<seq<Action>>,
                  q: nat, r: nat, o: nat) returns (k: nat)
    requires Pipeline.Generated(g, P, T, m, LA, raws) && CompleteAt(m.automaton, q, r) && o < g.ntokens
    requires Lookahead(g, m.automaton, m.gotos, m.nullable, q, r, o)
    ensures q < |raws| && k < |raws[q]| && r < |P.rulePrec| && r < |P.ruleAssoc| && raws[q][k] == ReduceAction(P, o, r)
  {
    hide Canonical, GotosOK, Packed.WellFormed, TablesSound, Judged, OnlyRule, RowFacts, Pipeline.RowFits, StateReads,
        Lookahead, TablesOK;
    var A := m.automaton;
    RowOf(g, P, T, m, LA, raws, q);
    var j: nat :| j < |A.reductions[q]| && A.reductions[q][j] == r;
    RuleOfReduction(g, A, q, j);
    var a := ReduceAction(P, o, r);
    assert ReducesAs(A, P, m.lookaheads, LA, g.ntokens, q, j, a);
    assert a in raws[q];
    k :| 0 <= k < |raws[q]| && raws[q][k] == a;
  }

  /** Where the reduction wins the token is not shifted. */
  lemma NoShift(g: Packed, P: Precedence, T: Tables, m: Pipeline.Made, LA: seq<set<nat>>, raws: seq<seq<Action>>,
                q: nat, r: nat, o: nat, key: nat, n: int)
    requires Pipeline.Generated(g, P, T, m, LA, raws) && CompleteAt(m.automaton, q, r) && 0 < o < g.ntokens
    requires Lookahead(g, m.automaton, m.gotos, m.nullable, q, r, o) && ReductionWins(P, r, o) && TokenWith(g, o, key)
    ensures Shaped(T) && !Offers(T, q, key, Trials.DoShift(n))
  {
    hide Pipeline.Generated, Judged, OnlyRule, RowFacts, StateReads, Lookahead, Ordered, Pipeline.RowFits;
    RowOf(g, P, T, m, LA, raws, q);
    if Offers(T, q, key, Trials.DoShift(n)) {
      var p := OfferedInRow(g, m.automaton, T, q, m.parser[q], o, key, Trials.DoShift(n));
      var k := RawReduce(g, P, T, m, LA, raws, q, r, o);
      RawOfRow(raws[q], q == T.final, m.parser[q], p);
      assert raws[q][p] in raws[q];
      ShiftRemoved(raws[q], q == T.final, m.parser[q], p, k);
    }
  }

  lemma RawOfRow(raw: seq<Action>, final: bool, row: seq<Action>, p: nat)
    requires Judged(raw, final, |raw|, row) && (p < |row| || p < |raw|)
    ensures p < |raw| == |row| && raw[p] == row[p].(suppressed := raw[p].suppressed)
  {}

  /** Where the shift wins the rule is not reduced. */
  lemma NoReduce(g: Packed, P: Precedence, T: Tables, m: Pipeline.Made, LA: seq<set<nat>>, raws: seq<seq<Action>>,
                 q: nat, r: nat, o: nat, key: nat, n: nat)
    requires Pipeline.Generated(g, P, T, m, LA, raws) && CompleteAt(m.automaton, q, r) && 0 < o < g.ntokens && r > 2
    requires Goto(m.automaton, q, o, n) && ShiftHolds(P, m.automaton, r, o) && TokenWith(g, o, key)
    ensures Shaped(T) && !Offers(T, q, key, Trials.DoReduce(r - 2))
  {
    hide Pipeline.Generated, Judged, RowFacts, StateReads, Ordered, Pipeline.RowFits, Goto, Undefeated;
    RowOf(g, P, T, m, LA, raws, q);
    var raw, row, final := raws[q], m.parser[q], q == T.final;
    var p := RawShift(g, m.automaton, P, m.lookaheads, LA, q, raw, o, n);
    AllDefeated(g, m.automaton, P, m.lookaheads, LA, q, raw, r, o, p);
    ShiftStays(raw, final, row, p);
    RawOfRow(raw, final, row, p);
    assert row[p] in row;
    if Offers(T, q, key, Trials.DoReduce(r - 2)) {
      var k := OfferedInRow(g, m.automaton, T, q, row, o, key, Trials.DoReduce(r - 2));
      RawOfRow(raw, final, row, k);
      assert raw[k] in raw;
      ReductionRemoved(raw, final, row, p, k);
    }
  }

  lemma RawShift(g: Packed, A: Automaton, P: Precedence, la: seq<nat>, LA: seq<set<nat>>, q: nat, raw: seq<Action>,
                 o: nat, n: nat) returns (p: nat)
    requires g.WellFormed() && Covers(P, g) && RawActions(g, A, P, la, LA, q, raw) && Goto(A, q, o, n) && o < g.ntokens
    ensures p < |raw| && o < |P.symbolPrec| && o < |P.symbolAssoc| && raw[p] == ShiftAction(P, o, n)
  {
    var a := ShiftAction(P, o, n);
    assert IsShift(g, A, P, q, a);
    assert a in raw;
    p :| 0 <= p < |raw| && raw[p] == a;
  }

  lemma AllDefeated(g: Packed, A: Automaton, P: Precedence, la: seq<nat>, LA: seq<set<nat>>, q: nat, raw: seq<Action>,
                    r: nat, o: nat, p: nat)
    requires Covers(P, g) && RawActions(g, A, P, la, LA, q, raw) && CompleteAt(A, q, r) && ShiftHolds(P, A, r, o)
    requires p < |raw| && raw[p].symbol == o && raw[p].prec == P.symbolPrec[o] && raw[p].assoc == P.symbolAssoc[o]
    ensures Undefeated(raw, p)
  {
    forall j | 0 <= j < |raw| && raw[j].symbol == o && raw[j].code == Reduce && raw[j].prec > 0
      ensures raw[p].prec > raw[j].prec || (raw[p].prec == raw[j].prec && raw[p].assoc == Right)
    {
      assert raw[j] in raw;
      assert IsReduce(A, P, la, LA, g.ntokens, q, raw[j]);
      assert CompleteAt(A, q, raw[j].number);
    }
  }

  // Trees.

  ghost predicate IsNode(t: Tree, y: int) {
    t.Node? && t.rule == y
  }

  /** In no node of rule y of t is child k a node of rule z. Rules are numbered as the parser does. */
  ghost predicate NeverChild(t: Tree, y: int, k: nat, z: int) {
    match t
    case Leaf(_) => true
    case Node(x, cs) =>
      (x == y && k < |cs| ==> !IsNode(cs[k], z)) && forall j :: 0 <= j < |cs| ==> NeverChild(cs[j], y, k, z)
  }

  /** Rule r is E: E o E, for a token o. */
  ghost predicate IsBinary(g: Packed, r: nat, E: nat, o: nat)
    requires g.WellFormed()
  {
    3 <= r < |g.rlhs| && g.rlhs[r] == E && g.Rhs(r) == [E, o, E] && 0 < o < g.ntokens
  }

  /** A generated parser, and two binary operators on one nonterminal. */
  datatype Setup = Setup(g: Packed, P: Precedence, T: Tables, m: Pipeline.Made, LA: seq<set<nat>>,
                         raws: seq<seq<Action>>, E: nat, r: nat, o: nat, r': nat, o': nat) {
    ghost predicate Fits() {
      && Pipeline.Generated(g, P, T, m, LA, raws) && g.WellFormed() && Shaped(T) && TablesSound(g, m.automaton, T)
      && Canonical(g, m.automaton) && Exact(g, m.automaton, m.gotos, m.nullable)
      && IsBinary(g, r, E, o) && IsBinary(g, r', E, o')
    }

    ghost predicate NeverThere(t: Tree, k: nat) {
      NeverChild(t, r - 2, k, r' - 2)
    }
  }

  lemma ReducedIsComplete(g: Packed, A: Automaton, q: nat, r: nat)
    requires g.WellFormed() && Canonical(g, A) && r >= 2
    ensures ReduceSound(g, A, q, r - 2) ==> CompleteAt(A, q, r)
  {
    if ReduceSound(g, A, q, r - 2) {
      assert RowsOK(g, A.states, A.shifts, A.reductions, q);
      assert g.RuleShape(r);
      assert CompleteIn(g, ItemsOf(g, A, q), r);
    }
  }

  /** Below a state where a binary rule is complete its right-hand side was entered. */
  lemma BinaryPath(s: Setup, ss: seq<nat>)
    requires s.Fits() && IsStatePath(s.m.automaton, ss) && ss[0] == 0
    requires CompleteAt(s.m.automaton, ss[|ss| - 1], s.r)
    ensures |ss| > 3 && Walks(s.m.automaton, ss[|ss| - 4], [s.E, s.o, s.E], ss[|ss| - 1])
    ensures Goto(s.m.automaton, ss[|ss| - 4], s.E, ss[|ss| - 3]) && Goto(s.m.automaton, ss[|ss| - 3], s.o, ss[|ss| - 2])
    ensures Goto(s.m.automaton, ss[|ss| - 2], s.E, ss[|ss| - 1])
    ensures s.g.rrhs[s.r] in ItemsOf(s.g, s.m.automaton, ss[|ss| - 4])
  {
    hide Canonical, ItemsOf, Pipeline.Generated, TablesSound, Packed.WellFormed;
    var g, A, n, r := s.g, s.m.automaton, |ss| - 1, s.r;
    EndItem(g, A, ss[n], r);
    PathSpells(g, A, ss, g.rrhs[r] + 3, r, 3);
    var t := Trail(A, ss[|ss| - 3..]);
    assert t[0] == A.states[ss[n - 2]].accessing && t[1] == A.states[ss[n - 1]].accessing;
    assert t[2] == A.states[ss[n]].accessing && g.Rhs(r)[..3] == g.Rhs(r);
    ThreeWalk(A, ss[n - 3], s.E, ss[n - 2], s.o, ss[n - 1], s.E, ss[n]);
  }

  lemma EndItem(g: Packed, A: Automaton, q: nat, r: nat)
    requires g.WellFormed() && Canonical(g, A) && CompleteAt(A, q, r) && 3 <= r < |g.rlhs|
    ensures r < |g.rrhs| && g.rrhs[r] + |g.Rhs(r)| in ItemsOf(g, A, q) && InRule(g, g.rrhs[r] + |g.Rhs(r)|, r)
  {
    assert RowsOK(g, A.states, A.shifts, A.reductions, q);
    assert CompleteIn(g, ItemsOf(g, A, q), r);
    var i: nat :| i in ItemsOf(g, A, q) && i < |g.ritem| && g.ritem[i] < 0 && g.ritem[i] + r == 0;
    ItemsInRules(g, A, q, i);
    var s := ItemHasRule(g, i);
    ItemAt(g, i, s);
    assert g.RuleShape(r);
  }

  lemma ThreeWalk(A: Automaton, p: nat, X: nat, p1: nat, Y: nat, p2: nat, Z: nat, q: nat)
    requires Goto(A, p, X, p1) && Goto(A, p1, Y, p2) && Goto(A, p2, Z, q)
    ensures Walks(A, p, [X, Y, Z], q)
  {
    assert [X][..0] == [] && Walks(A, p, [], p);
    assert WalksThrough(A, p, [X], p1, p);
    assert [X, Y][..1] == [X];
    assert WalksThrough(A, p, [X, Y], p2, p1);
    assert [X, Y, Z][..2] == [X, Y];
    assert WalksThrough(A, p, [X, Y, Z], q, p2);
  }

  /** Where the first rule is complete, the operator of the second is a lookahead: it comes after the same
      nonterminal. */
  lemma OperatorFollows(s: Setup, ss: seq<nat>)
    requires s.Fits() && IsStatePath(s.m.automaton, ss) && ss[0] == 0
    requires CompleteAt(s.m.automaton, ss[|ss| - 1], s.r)
    ensures Lookahead(s.g, s.m.automaton, s.m.gotos, s.m.nullable, ss[|ss| - 1], s.r, s.o')
  {
    hide Canonical, ItemsOf, Pipeline.Generated, TablesSound, Packed.WellFormed, GotosOK, Goto, Walks, Follows,
        Packed.Rhs;
    var g, A, gs, nullable, p := s.g, s.m.automaton, s.m.gotos, s.m.nullable, ss[|ss| - 1];
    BinaryPath(s, ss);
    var p0, p1 := ss[|ss| - 4], ss[|ss| - 3];
    WorldFacts(g, A, gs, nullable);
    var q := OperatorShifted(s, p0, p1);
    EOfRule(g, s.r, s.E);
    var n := TransitionNumber(g, A, gs, p0, s.E, p1);
    assert StartsRead(g, A, gs, nullable, p1, s.o');
    NextFollowed(g, A, gs, nullable, n, p0, s.E, p1, s.o');
    assert Lookback(g, A, gs, p, s.r, n);
  }

  lemma EOfRule(g: Packed, r: nat, E: nat)
    requires g.WellFormed() && 3 <= r < |g.rlhs| && g.rlhs[r] == E
    ensures g.ntokens < E < g.nsyms && r < |g.rrhs|
  {}

  /** After the nonterminal of a binary rule that starts in p0 the operator of the other is shifted. */
  lemma OperatorShifted(s: Setup, p0: nat, p1: nat) returns (q: nat)
    requires s.Fits() && p0 < |s.m.automaton.states| && s.r < |s.g.rrhs|
    requires s.g.rrhs[s.r] in ItemsOf(s.g, s.m.automaton, p0) && Goto(s.m.automaton, p0, s.E, p1)
    ensures Goto(s.m.automaton, p1, s.o', q)
  {
    hide Canonical, ItemsOf, Pipeline.Generated, TablesSound, Packed.WellFormed, Exact, Goto, Packed.Rhs;
    var g, A := s.g, s.m.automaton;
    EOfRule(g, s.r', s.E);
    var x := StartIsPredicted(g, A, p0, s.r);
    RuleStarts(g, A, p0, x, s.r');
    DotInside(g, A, p0, s.r', 0);
    var q1 := GotoExists(g, A, p0, g.rrhs[s.r']);
    GotoUnique(g, A, p0, s.E, p1, q1);
    GotoInRange(A, p0, s.E, p1);
    DotInside(g, A, p1, s.r', 1);
    q := GotoExists(g, A, p1, g.rrhs[s.r'] + 1);
  }

  /** The stack after a reduction by y, and what its last states were entered by. */
  lemma ReducedShape(g: Packed, A: Automaton, T: Tables, input: nat -> Lexeme, k: Trials.Spot, y: int)
    returns (r: nat, n: nat, q: nat)
    requires TablesSound(g, A, T) && Shaped(T) && g.WellFormed() && Trials.SpotOK(g, A, input, k)
    requires ReduceSound(g, A, Trials.Top(k.stack), y)
    ensures r == y + 2 && 3 <= r < |g.rlhs| && n + |g.Rhs(r)| == |k.stack.vals| && |k.stack.ss| == |k.stack.vals| + 1
    ensures var t := Node(y, k.stack.vals[n..]);
            var x := Reduction(T, k.stack, y);
            x.Reduced? && x.tree == t && x.stack == Pushed(Stack(k.stack.ss[..n + 1], k.stack.vals[..n]), q, t)
    ensures Goto(A, k.stack.ss[n], g.rlhs[r], q) && q < |A.states| && A.states[q].accessing == g.rlhs[r]
    ensures forall i :: 0 <= i < |g.Rhs(r)| ==>
        k.stack.ss[n + 1 + i] < |A.states| && A.states[k.stack.ss[n + 1 + i]].accessing == g.Rhs(r)[i]
  {
    hide Packed.WellFormed, Canonical, StateSound, NaturalCodes, ReduceSound, ItemsOf, Parses, YieldAll, Consumed,
        Packed.Rhs;
    var ss := k.stack.ss;
    r, q := LeftRecursion.Popped(g, A, T, ss, y);
    n := |k.stack.vals| - |g.Rhs(r)|;
    forall i | 0 <= i < |g.Rhs(r)|
      ensures ss[n + 1 + i] < |A.states| && A.states[ss[n + 1 + i]].accessing == g.Rhs(r)[i]
    {
      assert Trail(A, ss[|ss| - |g.Rhs(r)|..])[i] == A.states[ss[n + 1 + i]].accessing;
    }
  }

  /** State j of the stack was entered by the operator of the second rule. */
  ghost predicate OperatorAt(s: Setup, o: nat, ss: seq<nat>, j: nat) {
    j < |ss| && ss[j] < |s.m.automaton.states| && s.m.automaton.states[ss[j]].accessing == o
  }

  // The last child.

  /** Neither the operator of the second rule nor a node of that rule stands above, or in, a state where the
      first rule is complete. */
  ghost predicate LastAt(s: Setup, st: Stack, i: nat) {
    && i < |st.vals| && i + 1 < |st.ss| && s.NeverThere(st.vals[i], 2)
    && (OperatorAt(s, s.o', st.ss, i + 1) ==> !CompleteAt(s.m.automaton, st.ss[i], s.r))
    && (IsNode(st.vals[i], s.r' - 2) ==> !CompleteAt(s.m.automaton, st.ss[i + 1], s.r))
  }

  ghost predicate LastKept(s: Setup, k: Trials.Spot) {
    |k.stack.ss| == |k.stack.vals| + 1 && forall i: nat :: i < |k.stack.vals| ==> LastAt(s, k.stack, i)
  }

  lemma LastShift(s: Setup, input: nat -> Lexeme, k: Trials.Spot, n: int)
    requires s.Fits() && Trials.SpotOK(s.g, s.m.automaton, input, k) && LastKept(s, k) && ReductionWins(s.P, s.r, s.o')
    requires MayDo(s.T, input, k, Trials.DoShift(n)) && Trials.Perform(s.T, input, k, Trials.DoShift(n)).Next?
    ensures LastKept(s, Trials.Perform(s.T, input, k, Trials.DoShift(n)).spot)
  {
    hide Canonical, Pipeline.Generated, TablesSound, Packed.WellFormed, Exact, IsBinary, ReductionWins, Offers,
        CompleteAt, Goto, IsStatePath;
    var A, ss, l := s.m.automaton, k.stack.ss, Trials.Perform(s.T, input, k, Trials.DoShift(n)).spot;
    var top, key := ss[|ss| - 1], Norm(input(k.pos).code);
    Endings.OfferIsSound(s.g, A, s.T, input, k, Trials.DoShift(n));
    var t: nat :| TokenWith(s.g, t, key) && Goto(A, top, t, n);
    LeftRecursion.EnteredBy(A, top, t, n);
    if t == s.o' && CompleteAt(A, top, s.r) {
      OperatorFollows(s, ss);
      OperatorIsToken(s);
      NoShift(s.g, s.P, s.T, s.m, s.LA, s.raws, top, s.r, s.o', key, n);
      assert false;
    }
    ShiftedLast(s, k, n, Leaf(input(k.pos)), l);
  }

  lemma OperatorIsToken(s: Setup)
    requires s.Fits()
    ensures 0 < s.o < s.g.ntokens && 0 < s.o' < s.g.ntokens && s.r > 2 && s.r' > 2
  {
    hide Pipeline.Generated, TablesSound, Exact, Canonical, Packed.WellFormed;
  }

  /** One more state and value. */
  lemma ShiftedLast(s: Setup, k: Trials.Spot, q: nat, t: Tree, l: Trials.Spot)
    requires LastKept(s, k) && l.stack == Pushed(k.stack, q, t) && s.NeverThere(t, 2)
    requires q < |s.m.automaton.states| && (s.m.automaton.states[q].accessing == s.o' ==>
        !CompleteAt(s.m.automaton, k.stack.ss[|k.stack.ss| - 1], s.r))
    requires IsNode(t, s.r' - 2) ==> !CompleteAt(s.m.automaton, q, s.r)
    ensures LastKept(s, l)
  {
    hide CompleteAt, NeverChild;
    forall i: nat | i < |l.stack.vals|
      ensures LastAt(s, l.stack, i)
    {
      assert i < |k.stack.vals| ==> LastAt(s, k.stack, i);
    }
  }

  /** Fewer states and values. */
  lemma CutLast(s: Setup, k: Trials.Spot, n: nat)
    requires LastKept(s, k) && n <= |k.stack.vals|
    ensures LastKept(s, k.(stack := Stack(k.stack.ss[..n + 1], k.stack.vals[..n])))
  {
    hide CompleteAt, NeverChild;
    var st := Stack(k.stack.ss[..n + 1], k.stack.vals[..n]);
    forall i: nat | i < |st.vals|
      ensures LastAt(s, st, i)
    {
      assert LastAt(s, k.stack, i);
    }
  }

  /** The node that a reduction makes. */
  lemma LastNode(s: Setup, input: nat -> Lexeme, k: Trials.Spot, y: int, r: nat, n: nat, q: nat)
    requires s.Fits() && Trials.SpotOK(s.g, s.m.automaton, input, k) && LastKept(s, k)
    requires ReduceSound(s.g, s.m.automaton, Trials.Top(k.stack), y) && r == y + 2 && 3 <= r < |s.g.rlhs|
    requires n + |s.g.Rhs(r)| == |k.stack.vals| && Goto(s.m.automaton, k.stack.ss[n], s.g.rlhs[r], q)
    requires forall i :: 0 <= i < |s.g.Rhs(r)| ==> OperatorAt(s, s.g.Rhs(r)[i], k.stack.ss, n + 1 + i)
    ensures s.NeverThere(Node(y, k.stack.vals[n..]), 2)
    ensures y == s.r' - 2 ==> !CompleteAt(s.m.automaton, q, s.r)
  {
    hide Canonical, Pipeline.Generated, TablesSound, Packed.WellFormed, Exact, CompleteAt, Goto, ReduceSound,
        Packed.Rhs;
    var A, ss, vals := s.m.automaton, k.stack.ss, k.stack.vals;
    OperatorIsToken(s);
    assert forall i: nat :: i < |vals[n..]| ==> LastAt(s, k.stack, n + i) && vals[n..][i] == vals[n + i];
    if y == s.r - 2 {
      ReducedIsComplete(s.g, A, Trials.Top(k.stack), s.r);
      assert vals[n..][2] == vals[n + 2];
    }
    if y == s.r' - 2 {
      assert OperatorAt(s, s.g.Rhs(r)[0], ss, n + 1 + 0) && OperatorAt(s, s.g.Rhs(r)[1], ss, n + 1 + 1);
      assert LastAt(s, k.stack, n + 1);
      PathGoto(A, ss, n);
      GotoUnique(s.g, A, ss[n], s.E, q, ss[n + 1]);
    }
  }

  lemma PathGoto(A: Automaton, ss: seq<nat>, n: nat)
    requires IsStatePath(A, ss) && n + 1 < |ss|
    ensures ss[n + 1] < |A.states| && Goto(A, ss[n], A.states[ss[n + 1]].accessing, ss[n + 1])
  {}

  lemma LastReduce(s: Setup, input: nat -> Lexeme, k: Trials.Spot, y: int)
    requires s.Fits() && Trials.SpotOK(s.g, s.m.automaton, input, k) && LastKept(s, k)
    requires MayDo(s.T, input, k, Trials.DoReduce(y)) && !Trials.Perform(s.T, input, k, Trials.DoReduce(y)).Broken?
    ensures LastKept(s, Trials.Perform(s.T, input, k, Trials.DoReduce(y)).spot)
    ensures Trials.Perform(s.T, input, k, Trials.DoReduce(y)).Done? ==>
        s.NeverThere(Trials.Perform(s.T, input, k, Trials.DoReduce(y)).tree, 2)
  {
    hide Canonical, Pipeline.Generated, TablesSound, Packed.WellFormed, Exact, CompleteAt, Goto, ReduceSound,
        Packed.Rhs,
        IsBinary, LastKept, NeverChild, Offers, Reduction, Trials.SpotOK;
    var A := s.m.automaton;
    Endings.OfferIsSound(s.g, A, s.T, input, k, Trials.DoReduce(y));
    var r, n, q := ReducedShape(s.g, A, s.T, input, k, y);
    LastNode(s, input, k, y, r, n, q);
    CutLast(s, k, n);
    OperatorIsToken(s);
    EOfRule(s.g, r, s.g.rlhs[r]);
    ShiftedLast(s, k.(stack := Stack(k.stack.ss[..n + 1], k.stack.vals[..n])), q, Node(y, k.stack.vals[n..]),
        Trials.Perform(s.T, input, k, Trials.DoReduce(y)).spot);
  }

  // The first child.

  /** A node of the second rule does not stand below the operator of the first. */
  ghost predicate FirstAt(s: Setup, st: Stack, i: nat) {
    && i < |st.vals| && i + 1 < |st.ss| && s.g.WellFormed() && NeverChild(st.vals[i], s.r - 2, 0, s.r' - 2)
    && (IsNode(st.vals[i], s.r' - 2) ==> !OperatorAt(s, s.o, st.ss, i + 2))
  }

  /** Where it is on top the operator does not come next. */
  ghost predicate FirstKept(s: Setup, input: nat -> Lexeme, k: Trials.Spot) {
    && |k.stack.ss| == |k.stack.vals| + 1 && (forall i: nat :: i < |k.stack.vals| ==> FirstAt(s, k.stack, i))
    && (k.stack.vals != [] && IsNode(k.stack.vals[|k.stack.vals| - 1], s.r' - 2) ==>
        !TokenWith(s.g, s.o, Norm(input(k.pos).code)))
  }

  /** Where the second rule is complete the operator of the first is shifted. */
  lemma OperatorAfter(s: Setup, ss: seq<nat>) returns (q: nat)
    requires s.Fits() && IsStatePath(s.m.automaton, ss) && ss[0] == 0
    requires CompleteAt(s.m.automaton, ss[|ss| - 1], s.r')
    ensures Goto(s.m.automaton, ss[|ss| - 1], s.o, q)
  {
    hide Canonical, ItemsOf, Pipeline.Generated, TablesSound, Packed.WellFormed, Exact, Goto, Packed.Rhs, CompleteAt;
    var g, A, n := s.g, s.m.automaton, |ss| - 1;
    var s' := s.(r := s.r', o := s.o', r' := s.r, o' := s.o);
    BinaryPath(s', ss);
    EndItem(g, A, ss[n], s.r');
    PathPrefix(A, ss, n);
    StepBack(g, A, ss[n - 1], ss[n], s.E, g.rrhs[s.r'] + 3, s.r');
    DotInside(g, A, ss[n - 1], s.r', 2);
    EOfRule(g, s.r, s.E);
    RuleStarts(g, A, ss[n - 1], g.rrhs[s.r'] + 2, s.r);
    q := OperatorShifted(s.(r' := s.r, o' := s.o), ss[n - 1], ss[n]);
  }

  lemma ShiftedFirst(s: Setup, input: nat -> Lexeme, k: Trials.Spot, q: nat, t: Tree, l: Trials.Spot)
    requires FirstKept(s, input, k) && l.stack == Pushed(k.stack, q, t)
    requires s.g.WellFormed() && NeverChild(t, s.r - 2, 0, s.r' - 2)
    requires q < |s.m.automaton.states|
    requires k.stack.vals != [] && IsNode(k.stack.vals[|k.stack.vals| - 1], s.r' - 2) ==>
        s.m.automaton.states[q].accessing != s.o
    requires IsNode(t, s.r' - 2) ==> !TokenWith(s.g, s.o, Norm(input(l.pos).code))
    ensures FirstKept(s, input, l)
  {
    hide NeverChild, Packed.WellFormed, TokenWith;
    forall i: nat | i < |l.stack.vals|
      ensures FirstAt(s, l.stack, i)
    {
      assert i < |k.stack.vals| ==> FirstAt(s, k.stack, i);
    }
  }

  lemma FirstShift(s: Setup, input: nat -> Lexeme, k: Trials.Spot, n: int)
    requires s.Fits() && Trials.SpotOK(s.g, s.m.automaton, input, k) && FirstKept(s, input, k)
    requires MayDo(s.T, input, k, Trials.DoShift(n)) && Trials.Perform(s.T, input, k, Trials.DoShift(n)).Next?
    ensures FirstKept(s, input, Trials.Perform(s.T, input, k, Trials.DoShift(n)).spot)
  {
    hide Canonical, Pipeline.Generated, TablesSound, Packed.WellFormed, Exact, IsBinary, Offers, CompleteAt, Goto,
        IsStatePath, FirstAt;
    var A, l := s.m.automaton, Trials.Perform(s.T, input, k, Trials.DoShift(n)).spot;
    var key := Norm(input(k.pos).code);
    Endings.OfferIsSound(s.g, A, s.T, input, k, Trials.DoShift(n));
    var t: nat :| TokenWith(s.g, t, key) && Goto(A, Trials.Top(k.stack), t, n);
    LeftRecursion.EnteredBy(A, Trials.Top(k.stack), t, n);
    ShiftedFirst(s, input, k, n, Leaf(input(k.pos)), l);
  }

  /** Below the top values cut off, nothing else comes next than before. */
  lemma FirstNode(s: Setup, input: nat -> Lexeme, k: Trials.Spot, y: int, r: nat, n: nat)
    requires s.Fits() && Trials.SpotOK(s.g, s.m.automaton, input, k) && FirstKept(s, input, k)
    requires r == y + 2 && 3 <= r < |s.g.rlhs| && n + |s.g.Rhs(r)| == |k.stack.vals|
    requires forall i :: 0 <= i < |s.g.Rhs(r)| ==> OperatorAt(s, s.g.Rhs(r)[i], k.stack.ss, n + 1 + i)
    ensures NeverChild(Node(y, k.stack.vals[n..]), s.r - 2, 0, s.r' - 2)
  {
    hide Canonical, Pipeline.Generated, TablesSound, Packed.WellFormed, Exact, Packed.Rhs;
    var vals := k.stack.vals;
    OperatorIsToken(s);
    assert forall i: nat :: i < |vals[n..]| ==> FirstAt(s, k.stack, n + i) && vals[n..][i] == vals[n + i];
    if y == s.r - 2 {
      assert OperatorAt(s, s.g.Rhs(r)[1], k.stack.ss, n + 1 + 1);
      assert FirstAt(s, k.stack, n);
    }
  }

  lemma CutFirst(s: Setup, k: Trials.Spot, n: nat, q: nat, t: Tree, l: Trials.Spot, input: nat -> Lexeme)
    requires FirstKept(s, input, k) && n <= |k.stack.vals|
    requires l.stack == Pushed(Stack(k.stack.ss[..n + 1], k.stack.vals[..n]), q, t)
    requires q < |s.m.automaton.states| && s.m.automaton.states[q].accessing != s.o
    requires s.g.WellFormed() && NeverChild(t, s.r - 2, 0, s.r' - 2)
    requires IsNode(t, s.r' - 2) ==> !TokenWith(s.g, s.o, Norm(input(l.pos).code))
    ensures FirstKept(s, input, l)
  {
    hide NeverChild, Packed.WellFormed, TokenWith;
    forall i: nat | i < |l.stack.vals|
      ensures FirstAt(s, l.stack, i)
    {
      assert i < n ==> FirstAt(s, k.stack, i);
    }
  }

  lemma FirstReduce(s: Setup, input: nat -> Lexeme, k: Trials.Spot, y: int)
    requires s.Fits() && Trials.SpotOK(s.g, s.m.automaton, input, k) && FirstKept(s, input, k)
    requires ShiftHolds(s.P, s.m.automaton, s.r', s.o)
    requires MayDo(s.T, input, k, Trials.DoReduce(y)) && !Trials.Perform(s.T, input, k, Trials.DoReduce(y)).Broken?
    ensures FirstKept(s, input, Trials.Perform(s.T, input, k, Trials.DoReduce(y)).spot)
    ensures Trials.Perform(s.T, input, k, Trials.DoReduce(y)).Done? ==>
        NeverChild(Trials.Perform(s.T, input, k, Trials.DoReduce(y)).tree, s.r - 2, 0, s.r' - 2)
  {
    hide Canonical, Pipeline.Generated, TablesSound, Packed.WellFormed, Exact, CompleteAt, Goto, ReduceSound,
        Packed.Rhs,
        IsBinary, FirstKept, NeverChild, Offers, Reduction, Trials.SpotOK, ShiftHolds;
    var A := s.m.automaton;
    Endings.OfferIsSound(s.g, A, s.T, input, k, Trials.DoReduce(y));
    var r, n, q := ReducedShape(s.g, A, s.T, input, k, y);
    FirstNode(s, input, k, y, r, n);
    OperatorIsToken(s);
    EOfRule(s.g, r, s.g.rlhs[r]);
    if y == s.r' - 2 && TokenWith(s.g, s.o, Norm(input(k.pos).code)) {
      WinnerHere(s, input, k);
      assert false;
    }
    CutFirst(s, k, n, q, Node(y, k.stack.vals[n..]), Trials.Perform(s.T, input, k, Trials.DoReduce(y)).spot, input);
  }

  /** The second rule is not reduced before the operator of the first. */
  lemma WinnerHere(s: Setup, input: nat -> Lexeme, k: Trials.Spot)
    requires s.Fits() && Trials.SpotOK(s.g, s.m.automaton, input, k) && ShiftHolds(s.P, s.m.automaton, s.r', s.o)
    requires ReduceSound(s.g, s.m.automaton, Trials.Top(k.stack), s.r' - 2)
    requires TokenWith(s.g, s.o, Norm(input(k.pos).code))
    ensures !MayDo(s.T, input, k, Trials.DoReduce(s.r' - 2))
  {
    hide Canonical, Pipeline.Generated, TablesSound, Packed.WellFormed, Exact, CompleteAt, Goto, ReduceSound,
        Packed.Rhs,
        IsBinary, Offers, ShiftHolds;
    OperatorIsToken(s);
    ReducedIsComplete(s.g, s.m.automaton, Trials.Top(k.stack), s.r');
    var n := OperatorAfter(s, k.stack.ss);
    NoReduce(s.g, s.P, s.T, s.m, s.LA, s.raws, Trials.Top(k.stack), s.r', s.o, Norm(input(k.pos).code), n);
  }

  // Runs.

  ghost predicate LastFits(s: Setup, input: nat -> Lexeme, k: Trials.Spot)
    requires s.g.WellFormed()
  {
    Trials.SpotOK(s.g, s.m.automaton, input, k) && LastKept(s, k)
  }

  ghost predicate FirstFits(s: Setup, input: nat -> Lexeme, k: Trials.Spot)
    requires s.g.WellFormed()
  {
    Trials.SpotOK(s.g, s.m.automaton, input, k) && FirstKept(s, input, k)
  }

  /** What an action offered comes to, and what a parse that it ends returns. */
  lemma LastStep(s: Setup, input: nat -> Lexeme, k: Trials.Spot, a: Trials.Action)
    requires s.Fits() && LastFits(s, input, k) && ReductionWins(s.P, s.r, s.o') && MayDo(s.T, input, k, a)
    ensures var x := Trials.Perform(s.T, input, k, a);
            && (x.Next? ==> LastFits(s, input, x.spot))
            && (x.Done? ==> s.NeverThere(x.tree, 2))
  {
    hide Canonical, Pipeline.Generated, TablesSound, Packed.WellFormed, Exact, IsBinary, Offers, LastKept, NeverChild,
        Trials.SpotOK, Reduction, ReductionWins;
    Endings.OfferIsSound(s.g, s.m.automaton, s.T, input, k, a);
    Trials.PerformOK(s.g, s.m.automaton, s.T, input, k, a);
    if a.DoShift? {
      LastShift(s, input, k, a.n);
    } else {
      LastReduce(s, input, k, a.y);
    }
  }

  lemma FirstStep(s: Setup, input: nat -> Lexeme, k: Trials.Spot, a: Trials.Action)
    requires s.Fits() && FirstFits(s, input, k) && ShiftHolds(s.P, s.m.automaton, s.r', s.o) && MayDo(s.T, input, k, a)
    ensures var x := Trials.Perform(s.T, input, k, a);
            && (x.Next? ==> FirstFits(s, input, x.spot))
            && (x.Done? ==> s.NeverThere(x.tree, 0))
  {
    hide Canonical, Pipeline.Generated, TablesSound, Packed.WellFormed, Exact, IsBinary, Offers, FirstKept, NeverChild,
        Trials.SpotOK, Reduction, ShiftHolds;
    Endings.OfferIsSound(s.g, s.m.automaton, s.T, input, k, a);
    Trials.PerformOK(s.g, s.m.automaton, s.T, input, k, a);
    if a.DoShift? {
      FirstShift(s, input, k, a.n);
    } else {
      FirstReduce(s, input, k, a.y);
    }
  }

  lemma LastNests(s: Setup, input: nat -> Lexeme, yes: nat -> bool, n: nat)
    requires s.Fits() && ReductionWins(s.P, s.r, s.o') && Run(s.T, input, yes, n).status.Accepted?
    ensures s.NeverThere(Run(s.T, input, yes, n).ret, 2)
  {
    hide Canonical, Pipeline.Generated, TablesSound, Packed.WellFormed, Exact, IsBinary, Offers, LastFits, NeverChild,
        Trials.Perform, ReductionWins, Run, Shaped, Trials.SpotOK;
    var J := (k: Trials.Spot) => s.g.WellFormed() && LastFits(s, input, k);
    forall k: Trials.Spot, l: Trials.Spot | J(k) && Endings.MayStep(s.T, input, k, l)
      ensures J(l)
    {
      var a :| Endings.MayStepBy(s.T, input, k, l, a);
      LastStep(s, input, k, a);
    }
    OriginFits(s, input);
    Invariants.RunKeeps(s.g, s.m.automaton, s.T, input, yes, n, J);
    var k, a, l :| Invariants.DoneFrom(s.T, input, J, k, a, l, Run(s.T, input, yes, n).ret);
    LastStep(s, input, k, a);
  }

  lemma OriginFits(s: Setup, input: nat -> Lexeme)
    requires s.Fits()
    ensures LastFits(s, input, Search.Origin()) && FirstFits(s, input, Search.Origin())
  {
    hide Canonical, Pipeline.Generated, TablesSound, Packed.WellFormed, Exact, IsBinary, Trials.SpotOK, Shaped;
    Endings.OriginOK(s.g, s.m.automaton, s.T, input);
  }

  lemma FirstNests(s: Setup, input: nat -> Lexeme, yes: nat -> bool, n: nat)
    requires s.Fits() && ShiftHolds(s.P, s.m.automaton, s.r', s.o) && Run(s.T, input, yes, n).status.Accepted?
    ensures s.NeverThere(Run(s.T, input, yes, n).ret, 0)
  {
    hide Canonical, Pipeline.Generated, TablesSound, Packed.WellFormed, Exact, IsBinary, Offers, FirstFits, NeverChild,
        Trials.Perform, ShiftHolds, Run, Shaped, Trials.SpotOK;
    var J := (k: Trials.Spot) => s.g.WellFormed() && FirstFits(s, input, k);
    forall k: Trials.Spot, l: Trials.Spot | J(k) && Endings.MayStep(s.T, input, k, l)
      ensures J(l)
    {
      var a :| Endings.MayStepBy(s.T, input, k, l, a);
      FirstStep(s, input, k, a);
    }
    OriginFits(s, input);
    Invariants.RunKeeps(s.g, s.m.automaton, s.T, input, yes, n, J);
    var k, a, l :| Invariants.DoneFrom(s.T, input, J, k, a, l, Run(s.T, input, yes, n).ret);
    FirstStep(s, input, k, a);
  }

  lemma SetupFits(s: Setup)
    requires Pipeline.Generated(s.g, s.P, s.T, s.m, s.LA, s.raws) && s.g.WellFormed()
    requires IsBinary(s.g, s.r, s.E, s.o) && IsBinary(s.g, s.r', s.E, s.o')
    ensures s.Fits()
  {
    hide Packed.WellFormed, IsBinary, Canonical, TablesSound, GotosOK, LookaheadsOK, TablesOK, ParserOK;
    Pipeline.GeneratedFacts(s.g, s.P, s.T, s.m, s.LA, s.raws);
  }

  /** The trees of a generated parser nest as precedence says, on every input, whatever the other conflicts:
      a phrase with the second operator is never the last operand of the first where the rule of the first
      wins against the token of the second, and never its first operand where the token of the first wins
      against the rule of the second. */
  lemma OperatorsNest(g: Packed, P: Precedence, T: Tables, m: Pipeline.Made, LA: seq<set<nat>>, raws: seq<seq<Action>>,
                      E: nat, r: nat, o: nat, r': nat, o': nat, input: nat -> Lexeme, yes: nat -> bool, n: nat)
    requires Pipeline.Generated(g, P, T, m, LA, raws) && g.WellFormed() && Shaped(T)
    requires IsBinary(g, r, E, o) && IsBinary(g, r', E, o') && Run(T, input, yes, n).status.Accepted?
    ensures ReductionWins(P, r, o') ==> NeverChild(Run(T, input, yes, n).ret, r - 2, 2, r' - 2)
    ensures ShiftHolds(P, m.automaton, r', o) ==> NeverChild(Run(T, input, yes, n).ret, r - 2, 0, r' - 2)
  {
    hide Pipeline.Generated, Run, NeverChild, ReductionWins, ShiftHolds, Setup.Fits, Packed.WellFormed, IsBinary,
        Shaped;
    var s := Setup(g, P, T, m, LA, raws, E, r, o, r', o');
    SetupFits(s);
    if ReductionWins(P, r, o') {
      LastNests(s, input, yes, n);
    }
    if ShiftHolds(P, m.automaton, r', o) {
      FirstNests(s, input, yes, n);
    }
  }

  // Declarations.

  /** Rule r is written e: e b e, for a token b and a nonterminal e, without a precedence of its own. */
  ghost predicate WrittenBinary(isTerm: seq<bool>, Prods: seq<Production>, closed: seq<seq<nat>>, rprec: seq<int>,
                                r: nat, e: nat, b: nat) {
    && 3 <= r < |Prods| + 3 && |closed| == |Prods| && r < |rprec| && rprec[r] == Defs.UNDEFINED
    && Prods[r - 3] == Production(e, [e, b, e]) && closed[r - 3] == [e, b, e]
    && 1 <= e < |isTerm| && 1 <= b < |isTerm| && isTerm[b] && !isTerm[e]
  }

  /** A rule so written is a binary operator's, with the precedence declared for the token. */
  lemma BinaryAsWritten(isTerm: seq<bool>, given: seq<int>, goal: nat, Prods: seq<Production>, S: PackGrammar.Symbols,
                        g: Packed, prec: seq<int>, assoc: seq<Assoc>, closed: seq<seq<nat>>, rprec: seq<int>,
                        rassoc: seq<Assoc>, P: Precedence, r: nat, e: nat, b: nat)
    requires FrontEnd.Packs(isTerm, given, goal, Prods, S, g)
    requires FrontEnd.Ranks(isTerm, S, prec, assoc, closed, rprec, rassoc, P)
    requires WrittenBinary(isTerm, Prods, closed, rprec, r, e, b)
    ensures e < |S.index| && b < |S.index| && g.WellFormed() && IsBinary(g, r, S.index[e], S.index[b])
    ensures S.index[b] < |P.symbolPrec| == |P.symbolAssoc| && b < |prec| == |assoc|
    ensures r < |P.rulePrec| && P.rulePrec[r] == P.symbolPrec[S.index[b]] == prec[b]
    ensures P.symbolAssoc[S.index[b]] == assoc[b]
  {
    hide Packed.WellFormed;
    assert FrontEnd.Renamed(S, Prods[r - 3], g, r);
    assert PackGrammar.Indexed(S, [e, b, e]) == [S.index[e], S.index[b], S.index[e]];
    assert FrontEnd.LastToken(isTerm, closed[r - 3], 1);
  }

  /** Rule r is complete nowhere together with another one. */
  ghost predicate CompleteAlone(A: Automaton, r: nat) {
    forall q: nat, s: nat :: CompleteAt(A, q, r) && CompleteAt(A, q, s) ==> s == r
  }

  /** Operators as declared. Of two binary operators b and c with precedences: where b binds tighter, or both
      equally and c not to the right, no phrase with c is the last operand of one with b; where b binds
      tighter, or both equally and b to the right, no phrase with c is the first operand of one with b. So
      an operator declared %left nests to the left, and one declared %right to the right. */
  lemma DeclaredNest(isTerm: seq<bool>, given: seq<int>, goal: nat, Prods: seq<Production>, S: PackGrammar.Symbols,
                     g: Packed, prec: seq<int>, assoc: seq<Assoc>, closed: seq<seq<nat>>, rprec: seq<int>,
                     rassoc: seq<Assoc>, P: Precedence, T: Tables, m: Pipeline.Made, LA: seq<set<nat>>,
                     raws: seq<seq<Action>>, e: nat, r: nat, b: nat, r': nat, c: nat, input: nat -> Lexeme,
                     yes: nat -> bool, n: nat)
    requires FrontEnd.Packs(isTerm, given, goal, Prods, S, g)
    requires FrontEnd.Ranks(isTerm, S, prec, assoc, closed, rprec, rassoc, P)
    requires Pipeline.Generated(g, P, T, m, LA, raws) && Shaped(T) && Run(T, input, yes, n).status.Accepted?
    requires WrittenBinary(isTerm, Prods, closed, rprec, r, e, b) &&
        WrittenBinary(isTerm, Prods, closed, rprec, r', e, c)
    requires b < |prec| == |assoc| && c < |prec| && prec[b] > 0 && prec[c] > 0
    ensures prec[b] > prec[c] || (prec[b] == prec[c] && assoc[c] != Right) ==>
        NeverChild(Run(T, input, yes, n).ret, r - 2, 2, r' - 2)
    ensures CompleteAlone(m.automaton, r') && (prec[b] > prec[c] || (prec[b] == prec[c] && assoc[b] == Right)) ==>
        NeverChild(Run(T, input, yes, n).ret, r - 2, 0, r' - 2)
  {
    hide Pipeline.Generated, Run, NeverChild, FrontEnd.Packs, FrontEnd.Ranks, WrittenBinary, Packed.WellFormed,
        IsBinary, Shaped, CompleteAt;
    BinaryAsWritten(isTerm, given, goal, Prods, S, g, prec, assoc, closed, rprec, rassoc, P, r, e, b);
    BinaryAsWritten(isTerm, given, goal, Prods, S, g, prec, assoc, closed, rprec, rassoc, P, r', e, c);
    OperatorsNest(g, P, T, m, LA, raws, S.index[e], r, S.index[b], r', S.index[c], input, yes, n);
  }
}

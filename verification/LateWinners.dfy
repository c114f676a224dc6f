/** A reduction that wins by precedence after a rival without precedence stands beside a conflict on
    its own token. Such rows exist, and the parser can never take the winner there. */
module LateWinners {
  import opened Grammar
  import opened LR0
  import opened MkPar
  import opened ConflictTable
  import opened TokenActions
  import opened ActionRows
  import opened Output
  import opened Machine
  import opened MachineStacks
  import Trials
  import opened Completeness
  import Pipeline

  /** A shift with precedence, a reduction without, a reduction with a higher one. */
  lemma LateWinnerExists() returns (row: seq<Action>)
    ensures Ordered(row) && Unsuppressed(row) && LateWinner(row, false, 0, 2, 1)
  {
    row := [Action(5, 1, 1, Shift, Left, 0), Action(5, 3, 0, Reduce, MkPar.Token, 0), Action(5, 4, 2, Reduce, Left, 0)];
    assert Head(row, 0) == 0 && Head(row, 1) == 0 && Head(row, 2) == 0;
    assert SameRun(row, 0, 1) && SameRun(row, 0, 2);
    assert Beats(row[0], row[2]) && !Beats(row[0], row[1]);
    assert !BeatenBefore(row, 0, 2);
  }

  /** Two of its actions are unsuppressed reductions by different rules. */
  lemma NoDefaultRule(raw: seq<Action>, final: bool, row: seq<Action>, h: nat, p: nat, k: nat, r: nat)
    requires Ordered(raw) && Judged(raw, final, |raw|, row) && LateWinner(raw, final, h, p, k)
    ensures !OnlyRule(row, r)
  {
    StandingBesideConflict(raw, final, row, h, p, k);
    HeadOfRun(raw, k, p);
    assert Before(raw[k], raw[p]);
    assert row[k] in row && row[p] in row;
  }

  /** The winner is in no conflict, and nothing else on its token reads like it. */
  lemma WinnerIsAlone(raw: seq<Action>, final: bool, row: seq<Action>, h: nat, p: nat, k: nat, m: nat)
    requires Ordered(raw) && Judged(raw, final, |raw|, row) && LateWinner(raw, final, h, p, k)
    requires m < |row| && row[m].symbol == row[p].symbol && row[m].suppressed == 1
    ensures row[m].code == Reduce && row[m].number != row[p].number
  {
    StandingBesideConflict(raw, final, row, h, p, k);
    OrderedRuns(raw, if m < p then m else p, if m < p then p else m);
    HeadOfRun(raw, h, p);
    if m == h {
      assert Overruled(raw, h, |raw|);
      assert false;
    }
    assert Before(raw[if m < p then m else p], raw[if m < p then p else m]);
    assert SameRun(raw, h, m);
    assert Before(raw[h], raw[m]);
  }

  lemma {:induction false} AlternativeIsAction(row: seq<Action>, n: nat, t: nat, x: int) returns (m: nat)
    requires n <= |row| && x in Alternatives(row, n, t)
    ensures m < n && row[m].symbol == t && row[m].suppressed == 1 && Entry(row[m]) == x
  {
    var a := row[n - 1];
    if a.symbol == t && a.suppressed == 1 && Entry(a) == x {
      m := n - 1;
    } else {
      m := AlternativeIsAction(row, n - 1, t, x);
    }
  }

  /** Turns at k: every alternative tried there is in the list as it decodes. */
  lemma TurnDecodes(g: Packed, A: Automaton, T: Tables, input: nat -> Lexeme, t: Trials.Turn)
    requires g.WellFormed() && Shaped(T) && Trials.TurnOK(g, A, T, input, t)
    ensures var e := Trials.Decide(T, input, t.spot).e;
            && 0 <= e < |T.ctable|
            && (Trials.Alternative(T, e, t.ctry).DoReduce? ==>
                Trials.Alternative(T, e, t.ctry).y in Decode(T.ctable, e))
  {
    var e := Trials.Decide(T, input, t.spot).e;
    var q, key := Trials.Top(t.spot.stack), Norm(input(t.spot.pos).code);
    var values, reduceFirst, j: nat :| Trials.Trying(g, A, T, q, key, e, t.ctry, values, reduceFirst, j);
    Trials.TryingSound(g, A, T, input, t.spot, e, t.ctry, values, reduceFirst, j);
    DecodeStored(T.ctable, e, values, reduceFirst);
  }

  /** One row: its conflict list is looked up, and leaves the winner out. */
  lemma WinnerNotListed(g: Packed, raw: seq<Action>, final: bool, row: seq<Action>, T: Tables, q: nat, key: nat, h: nat,
                        p: nat, k: nat)
    requires NaturalCodes(g) && T.WellSized() && q < |T.sindex| && q < |T.rindex| && q < |T.cindex|
    requires StateReads(g, row, 0, T, q) && RowFacts(row, g.ntokens) && Ordered(raw) && Judged(raw, final, |raw|, row)
    requires LateWinner(raw, final, h, p, k) && TokenWith(g, raw[p].symbol, key)
    ensures T.Hit(T.cindex[q], key)
    ensures var e := T.table[T.cindex[q] + key];
            0 <= e < |T.ctable| && row[p].number - 2 !in Decode(T.ctable, e)
  {
    hide StateReads, NaturalCodes, Alternatives, Tables.Hit, Decode, RowFacts;
    var t := raw[p].symbol;
    ConflictsDecode(g, row, T, q, t, key);
    RivalIsListed(raw, final, row, h, p, k);
    var y := row[p].number - 2;
    if y in Alternatives(row, |row|, t) {
      var m := AlternativeIsAction(row, |row|, t, y);
      WinnerIsAlone(raw, final, row, h, p, k, m);
    }
  }

  /** The state of a late winner has no default reduction. */
  lemma NoDefaultState(g: Packed, A: Automaton, P: Precedence, la: seq<nat>, LA: seq<set<nat>>, finalState: nat, q: nat,
                       raw: seq<Action>, row: seq<Action>, defred: nat, h: nat, p: nat, k: nat)
    requires g.WellFormed() && Canonical(g, A) && Covers(P, g) && q < |A.states|
    requires RowOK(g, A, P, la, LA, finalState, q, raw, row, defred) && LateWinner(raw, q == finalState, h, p, k)
    ensures defred == 0 && Ordered(raw) && Judged(raw, q == finalState, |raw|, row) && RowFacts(row, g.ntokens)
  {
    if defred > 0 {
      NoDefaultRule(raw, q == finalState, row, h, p, k, defred);
    }
    Pipeline.RowIsReady(g, A, P, la, LA, q == finalState, q, raw, row);
  }

  /** In the state and on the token of a late winner the parser always finds a conflict, whose list
      leaves the winner out: no alternative that a trial, a backtrack or a replay takes is the winner. */
  lemma WinnerNeverTaken(g: Packed, A: Automaton, P: Precedence, la: seq<nat>, LA: seq<set<nat>>,
                         raws: seq<seq<Action>>, parser: seq<seq<Action>>, defred: seq<nat>, T: Tables,
                         input: nat -> Lexeme, spot: Trials.Spot, h: nat, p: nat, k: nat)
    requires Values(g) && Canonical(g, A) && Covers(P, g) && ParserOK(g, A, P, la, LA, T.final, raws, parser, defred)
    requires TablesOK(g, A, parser, defred, T.final, T) && TablesSound(g, A, T)
    requires var q := Trials.Top(spot.stack);
             && q < |raws| && LateWinner(raws[q], q == T.final, h, p, k)
             && TokenWith(g, raws[q][p].symbol, Norm(input(spot.pos).code))
    ensures var y := raws[Trials.Top(spot.stack)][p].number - 2; var d := Trials.Decide(T, input, spot);
            && d.Fork? && 0 <= d.e < |T.ctable| && y !in Decode(T.ctable, d.e)
            && forall t: Trials.Turn :: t.spot == spot && Trials.TurnOK(g, A, T, input, t) ==>
                Trials.Alternative(T, d.e, t.ctry) != Trials.DoReduce(y)
  {
    hide Canonical, Packed.WellFormed, LateWinner, Judged, Decode, StateSound, StateReads, Trials.TurnOK,
        Trials.Alternative, RawActions;
    var q, key := Trials.Top(spot.stack), Norm(input(spot.pos).code);
    assert RowOK(g, A, P, la, LA, T.final, q, raws[q], parser[q], defred[q]);
    NoDefaultState(g, A, P, la, LA, T.final, q, raws[q], parser[q], defred[q], h, p, k);
    WinnerNotListed(g, raws[q], q == T.final, parser[q], T, q, key, h, p, k);
    var e := T.table[T.cindex[q] + key];
    JudgedKeeps(raws[q], q == T.final, parser[q], h, p, k);
    forall u: Trials.Turn | u.spot == spot && Trials.TurnOK(g, A, T, input, u)
      ensures Trials.Alternative(T, e, u.ctry) != Trials.DoReduce(parser[q][p].number - 2)
    {
      TurnDecodes(g, A, T, input, u);
    }
  }

  /** Action p wins by precedence after a rival without precedence. */
  ghost predicate IsLateWinner(raw: seq<Action>, final: bool, p: nat) {
    exists h: nat, k: nat :: LateWinner(raw, final, h, p, k)
  }

  /** A standing action that is not a late winner has no rival left. */
  lemma NoWinnerAlone(raw: seq<Action>, final: bool, row: seq<Action>, p: nat)
    requires Ordered(raw) && Judged(raw, final, |raw|, row) && p < |row| && row[p].suppressed == 0
    requires !IsLateWinner(raw, final, p)
    ensures Alone(row, p)
  {
    forall k: nat | k < |row| && k != p && row[k].symbol == row[p].symbol
      ensures row[k].suppressed == 2
    {
      AtMostOneStands(raw, final, row, if k < p then k else p, if k < p then p else k);
      OrderedRuns(raw, if k < p then k else p, if k < p then p else k);
      StandingBesideConflict(raw, final, row, Head(raw, p), p, k);
    }
  }

  /** A row without a late winner on the token of p: p is the default, or what is looked up. */
  lemma StandingTaken(g: Packed, raw: seq<Action>, final: bool, row: seq<Action>, defred: nat, T: Tables, q: nat,
                      key: nat, p: nat)
    requires NaturalCodes(g) && Shaped(T) && q < |T.defred| && RowFacts(row, g.ntokens) &&
        StateReads(g, row, defred, T, q)
    requires T.defred[q] == DefaultOut(defred) && (defred > 0 ==> OnlyRule(row, defred))
    requires Ordered(raw) && Judged(raw, final, |raw|, row) && p < |row| && row[p].suppressed == 0
    requires if row[p].code == Shift then row[p].number > 0 else row[p].number > 2
    requires !IsLateWinner(raw, final, p) && TokenWith(g, row[p].symbol, key)
    ensures if T.defred[q] != 0 then row[p].code == Reduce && T.defred[q] == row[p].number - 2
            else FindsAlone(T, q, key, row[p])
  {
    hide Judged, Ordered, IsLateWinner, StateReads, NaturalCodes;
    if defred > 0 {
      assert row[p] in row;
    } else {
      NoWinnerAlone(raw, final, row, p);
      AloneFound(g, T, q, row, p, key);
    }
  }

  /** A standing action is what the parser does in its state and on its token exactly if it is not a
      late winner. */
  lemma TakenExactly(g: Packed, A: Automaton, P: Precedence, la: seq<nat>, LA: seq<set<nat>>, raws: seq<seq<Action>>,
                     parser: seq<seq<Action>>, defred: seq<nat>, T: Tables, input: nat -> Lexeme, spot: Trials.Spot,
                     p: nat)
    requires Values(g) && Canonical(g, A) && Covers(P, g) && ParserOK(g, A, P, la, LA, T.final, raws, parser, defred)
    requires TablesOK(g, A, parser, defred, T.final, T) && TablesSound(g, A, T) && Shaped(T)
    requires var q := Trials.Top(spot.stack);
             && q < |parser| && p < |parser[q]| && parser[q][p].suppressed == 0
             && TokenWith(g, parser[q][p].symbol, Norm(input(spot.pos).code))
    ensures var q := Trials.Top(spot.stack);
            Trials.Decide(T, input, spot) == Performing(parser[q][p]) <==>
            q < |raws| && !IsLateWinner(raws[q], q == T.final, p)
  {
    hide Canonical, Packed.WellFormed, LateWinner, Judged, StateSound, StateReads, RawActions, OnlyRule, Alone,
        IsLateWinner;
    var q, key := Trials.Top(spot.stack), Norm(input(spot.pos).code);
    assert RowOK(g, A, P, la, LA, T.final, q, raws[q], parser[q], defred[q]);
    if IsLateWinner(raws[q], q == T.final, p) {
      var h, k := WinnerOf(raws[q], q == T.final, p);
      JudgedKeeps(raws[q], q == T.final, parser[q], h, p, k);
      WinnerNeverTaken(g, A, P, la, LA, raws, parser, defred, T, input, spot, h, p, k);
    } else {
      RowStands(g, A, P, la, LA, q == T.final, q, raws[q], parser[q], p);
      StandingTaken(g, raws[q], q == T.final, parser[q], defred[q], T, q, key, p);
    }
  }

  lemma WinnerOf(raw: seq<Action>, final: bool, p: nat) returns (h: nat, k: nat)
    requires IsLateWinner(raw, final, p)
    ensures LateWinner(raw, final, h, p, k)
  {
    h, k :| LateWinner(raw, final, h, p, k);
  }

  lemma RowStands(g: Packed, A: Automaton, P: Precedence, la: seq<nat>, LA: seq<set<nat>>, final: bool, q: nat,
                  raw: seq<Action>, row: seq<Action>, p: nat)
    requires g.WellFormed() && Canonical(g, A) && Covers(P, g) && q < |A.states| && p < |row|
    requires RawActions(g, A, P, la, LA, q, raw) && Judged(raw, final, |raw|, row)
    ensures Ordered(raw) && RowFacts(row, g.ntokens) && if row[p].code == Shift then row[p].number > 0
        else row[p].number > 2
  {
    hide Judged, Canonical, Packed.WellFormed;
    Pipeline.RowIsReady(g, A, P, la, LA, final, q, raw, row);
    Pipeline.RowIsFit(g, A, P, la, LA, final, q, raw, row);
    assert Pipeline.ActionFits(g, A, q, row[p]);
    assert row[p] in row;
  }

  lemma JudgedKeeps(raw: seq<Action>, final: bool, row: seq<Action>, h: nat, p: nat, k: nat)
    requires Judged(raw, final, |raw|, row) && LateWinner(raw, final, h, p, k)
    ensures p < |row| == |raw| && row[p].number == raw[p].number && row[p].symbol == raw[p].symbol
  {}

  lemma {:induction false} StaysListed(row: seq<Action>, n: nat, t: nat, m: nat)
    requires m < n <= |row| && row[m].symbol == t && row[m].suppressed == 1
    ensures Alternatives(row, n, t) != []
  {
    if m < n - 1 {
      StaysListed(row, n - 1, t, m);
    }
  }

  lemma RivalIsListed(raw: seq<Action>, final: bool, row: seq<Action>, h: nat, p: nat, k: nat)
    requires Judged(raw, final, |raw|, row) && LateWinner(raw, final, h, p, k)
    ensures Alternatives(row, |row|, raw[p].symbol) != []
  {
    StandingBesideConflict(raw, final, row, h, p, k);
    HeadOfRun(raw, k, p);
    StaysListed(row, |row|, raw[p].symbol, k);
  }
}

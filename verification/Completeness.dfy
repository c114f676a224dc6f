/** The generated parser of a grammar without conflicts decides its language: every input the grammar
    derives is accepted. */
module Completeness {
  import opened Grammar
  import opened Closure
  import opened LR0
  import opened Paths
  import opened GotoMap
  import opened Relations
  import opened Lalr
  import opened MkPar
  import opened ConflictTable
  import opened TokenActions
  import opened ActionRows
  import opened Output
  import opened Machine
  import opened MachineStacks
  import Trials
  import opened Replay
  import Search
  import LexemeQueue
  import Skeleton
  import opened FollowTokens

  /** Precedence removed nothing: actions stand or are in conflict. */
  ghost predicate NoneRemoved(row: seq<Action>) {
    forall p :: 0 <= p < |row| ==> row[p].suppressed <= 1
  }

  ghost predicate NoneSuppressed(row: seq<Action>) {
    forall p :: 0 <= p < |row| ==> row[p].suppressed == 0
  }

  /** Action a is alternative j of the list at e. */
  ghost predicate IsAlternative(T: Tables, e: nat, j: nat, a: Trials.Action) {
    j < |Decode(T.ctable, e)| && a == Trials.Alternative(T, e, Search.First(T, e) + j)
  }

  /** Action a is what the tables say for state q and token number key, or one alternative of the
      conflict they say. */
  ghost predicate Offers(T: Tables, q: nat, key: nat, a: Trials.Action)
    requires Shaped(T)
  {
    && q < |T.defred|
    && if T.defred[q] != 0 then a == Trials.DoReduce(T.defred[q])
       else if Peek(T, T.cindex, q, key).Some? then
         var e := Peek(T, T.cindex, q, key).value;
         e >= 0 && exists j: nat :: IsAlternative(T, e, j, a)
       else if Peek(T, T.sindex, q, key).Some? then a == Trials.DoShift(Peek(T, T.sindex, q, key).value)
       else Peek(T, T.rindex, q, key).Some? && a == Trials.DoReduce(Peek(T, T.rindex, q, key).value)
  }

  /** Action p stands, and the others on its token are removed. */
  ghost predicate Alone(row: seq<Action>, p: nat) {
    && p < |row| && row[p].suppressed == 0
    && forall k :: 0 <= k < |row| && k != p && row[k].symbol == row[p].symbol ==> row[k].suppressed == 2
  }

  /** Where precedence removed nothing, a standing action has no rival. */
  lemma StandsAlone(raw: seq<Action>, final: bool, row: seq<Action>, p: nat)
    requires Ordered(raw) && Judged(raw, final, |raw|, row) && NoneRemoved(row) && p < |row| && row[p].suppressed == 0
    ensures Alone(row, p)
  {
    forall k: nat | k < |row| && k != p && row[k].symbol == row[p].symbol
      ensures false
    {
      OrderedRuns(raw, if k < p then k else p, if k < p then p else k);
      AtMostOneStands(raw, final, row, if k < p then k else p, if k < p then p else k);
      var h := Head(raw, p);
      StandingBesideConflict(raw, final, row, h, p, k);
      WinnerRemoves(raw, final, row, h, p, k);
    }
  }

  /** A winner by precedence has the shift removed. */
  lemma WinnerRemoves(raw: seq<Action>, final: bool, row: seq<Action>, h: nat, p: nat, k: nat)
    requires Judged(raw, final, |raw|, row) && LateWinner(raw, final, h, p, k)
    ensures h < |row| && row[h].suppressed == 2
  {
    HeadOfRun(raw, h, p);
    HeadOfRun(raw, h + 1, p);
    assert Overruled(raw, h, |raw|);
  }

  lemma {:induction false} ShiftFound(row: seq<Action>, n: nat, p: nat)
    requires Alone(row, p) && n <= |row|
    ensures ShiftOf(row, n, row[p].symbol) == if p < n && row[p].code == Shift then row[p].number else 0
  {
    if n > 0 {
      ShiftFound(row, n - 1, p);
    }
  }

  lemma {:induction false} ReduceFound(row: seq<Action>, n: nat, p: nat)
    requires Alone(row, p) && n <= |row|
    ensures ReduceOf(row, n, row[p].symbol, 0) == if p < n && row[p].code == Reduce && row[p].number != 0 then
        row[p].number else 0
  {
    if n > 0 {
      ReduceFound(row, n - 1, p);
    }
  }

  lemma {:induction false} NeverInConflict(row: seq<Action>, n: nat, t: nat)
    requires n <= |row| && forall k :: 0 <= k < |row| && row[k].symbol == t ==> row[k].suppressed != 1
    ensures !AnyConflict(row, n, t)
  {
    if n > 0 {
      NeverInConflict(row, n - 1, t);
    }
  }

  /** A row from which nothing was removed, and how it is looked up. */
  ghost predicate FullRow(g: Packed, T: Tables, q: nat, raw: seq<Action>, final: bool, row: seq<Action>, defred: nat) {
    && NaturalCodes(g) && Shaped(T) && q < |T.defred| && Ordered(raw) && Judged(raw, final, |raw|, row) &&
        NoneRemoved(row)
    && RowFacts(row, g.ntokens) && StateReads(g, row, defred, T, q)
    && T.defred[q] == DefaultOut(defred) && (defred > 0 ==> OnlyRule(row, defred))
  }

  function Performing(a: Action): Trials.Action {
    if a.code == Shift then Trials.DoShift(a.number) else Trials.DoReduce(a.number - 2)
  }

  /** What a state without a default reduction finds for an action alone on its token. */
  ghost predicate FindsAlone(T: Tables, q: nat, key: nat, a: Action)
    requires T.WellSized()
  {
    && Peek(T, T.cindex, q, key).None?
    && if a.code == Shift then Peek(T, T.sindex, q, key) == Some(a.number as int)
       else Peek(T, T.sindex, q, key).None? && Peek(T, T.rindex, q, key) == Some(a.number - 2)
  }

  /** It is looked up in the shifts or the reductions. */
  lemma AloneFound(g: Packed, T: Tables, q: nat, row: seq<Action>, p: nat, key: nat)
    requires NaturalCodes(g) && Shaped(T) && q < |T.defred| && RowFacts(row, g.ntokens) && StateReads(g, row, 0, T, q)
    requires Alone(row, p) && row[p].number > 0 && TokenWith(g, row[p].symbol, key)
    ensures FindsAlone(T, q, key, row[p])
  {
    hide ShiftOf, ReduceOf, AnyConflict, RowFacts;
    var t := row[p].symbol;
    NeverInConflict(row, |row|, t);
    ShiftFound(row, |row|, p);
    ReduceFound(row, |row|, p);
    EntryOfToken(g, row, 0, t, key);
    EntryOfToken(g, row, 1, t, key);
    EntryOfToken(g, row, 2, t, key);
    assert TokenReads(row, 0, T, q, t, key);
  }

  lemma StandingOffered(g: Packed, T: Tables, q: nat, raw: seq<Action>, final: bool, row: seq<Action>, p: nat, key: nat)
    requires FullRow(g, T, q, raw, final, row, 0) && p < |row| && row[p].suppressed == 0 && row[p].number > 0
    requires TokenWith(g, row[p].symbol, key)
    ensures Offers(T, q, key, Performing(row[p]))
  {
    hide Judged, NoneRemoved, Ordered, RowFacts, OnlyRule, StateReads, NaturalCodes;
    StandsAlone(raw, final, row, p);
    AloneFound(g, T, q, row, p, key);
  }

  /** A number has the entries of the one token that has it. */
  lemma EntryOfToken(g: Packed, row: seq<Action>, kind: nat, t: nat, key: nat)
    requires NaturalCodes(g) && TokenWith(g, t, key)
    ensures HasEntry(g, row, 0, kind, key) <==> Counted(row, |row|, t, 0, kind)
  {
    hide Counted, NaturalCodes;
    if s: nat :| TokenWith(g, s, key) && Counted(row, |row|, s, 0, kind) {
      CodeIsUnique(g, s, t, key);
    }
  }

  /** Where an action in conflict is in its list: a shift leads it, and it alone stands at the head of
      a list without a mark. */
  lemma {:induction false} ListPlace(row: seq<Action>, n: nat, t: nat, p: nat) returns (j: nat)
    requires n <= |row| && p < n && Listed(row[p], t, 0)
    requires forall k, r :: 0 <= k < r < |row| && row[k].symbol == row[r].symbol ==> row[r].code == Reduce
    ensures j < |ListOf(row, n, t, 0)| && ListOf(row, n, t, 0)[j] == Entry(row[p])
    ensures row[p].code == Shift <==> j == 0 && !ReduceLeads(row, n, t, 0)
  {
    if p < n - 1 {
      j := ListPlace(row, n - 1, t, p);
    } else {
      j := |ListOf(row, n - 1, t, 0)|;
      if j > 0 {
        EarlierListed(row, n - 1, t);
      }
    }
  }

  lemma {:induction false} EarlierListed(row: seq<Action>, n: nat, t: nat)
    requires n <= |row| && ListOf(row, n, t, 0) != []
    ensures exists k :: 0 <= k < n && row[k].symbol == t
  {
    if !Listed(row[n - 1], t, 0) {
      EarlierListed(row, n - 1, t);
    }
  }

  lemma ListedOrder(raw: seq<Action>, final: bool, row: seq<Action>)
    requires Ordered(raw) && Judged(raw, final, |raw|, row)
    ensures forall k, r :: 0 <= k < r < |row| && row[k].symbol == row[r].symbol ==> row[r].code == Reduce
  {
    forall k, r | 0 <= k < r < |row| && row[k].symbol == row[r].symbol
      ensures row[r].code == Reduce
    {
      assert Before(raw[k], raw[r]);
    }
  }

  /** An action in conflict is an alternative of its list. */
  lemma ConflictOffered(g: Packed, T: Tables, q: nat, raw: seq<Action>, final: bool, row: seq<Action>, p: nat, key: nat)
    requires FullRow(g, T, q, raw, final, row, 0) && p < |row| && row[p].suppressed == 1 &&
        row[p].number > 2 * (if row[p].code == Shift then 0 else 1)
    requires TokenWith(g, row[p].symbol, key)
    ensures Offers(T, q, key, Performing(row[p]))
  {
    hide StateReads, NaturalCodes, Decode, Judged, Ordered, ListOf, ReduceLeads, Alternatives, NoneRemoved;
    var t := row[p].symbol;
    ListedOrder(raw, final, row);
    var j := ListPlace(row, |row|, t, p);
    forall k | 0 <= k < |row| && row[k].code == Reduce
      ensures row[k].number >= 2
    {
      assert row[k] in row;
    }
    ListIsAlternatives(row, |row|, t);
    ConflictsDecode(g, row, T, q, t, key);
    var e := T.table[T.cindex[q] + key];
    PlaceInTable(T, e, j);
    assert IsAlternative(T, e, j, Performing(row[p]));
  }

  lemma PlaceInTable(T: Tables, e: nat, j: nat)
    requires e < |T.ctable| && j < |Decode(T.ctable, e)|
    ensures 0 <= Search.First(T, e) + j < |T.ctable| && T.ctable[Search.First(T, e) + j] == Decode(T.ctable, e)[j]
  {
    ReadPlace(T.ctable, Search.First(T, e), j);
  }

  lemma {:induction false} ReadPlace(table: seq<int>, c: nat, j: nat)
    requires j < |ReadFrom(table, c)|
    ensures c + j < |table| && table[c + j] == ReadFrom(table, c)[j]
    decreases j
  {
    if j > 0 {
      ReadPlace(table, c + 1, j - 1);
    }
  }

  /** Whatever the row holds is offered. */
  lemma RowOffers(g: Packed, T: Tables, q: nat, raw: seq<Action>, final: bool, row: seq<Action>, defred: nat, p: nat,
                  key: nat)
    requires FullRow(g, T, q, raw, final, row, defred) && p < |row| && TokenWith(g, row[p].symbol, key)
    requires if row[p].code == Shift then row[p].number > 0 else row[p].number > 2
    ensures Offers(T, q, key, Performing(row[p]))
  {
    hide Ordered, Judged, RowFacts, StateReads, NaturalCodes;
    if defred > 0 {
      assert row[p] in row;
    } else if row[p].suppressed == 0 {
      StandingOffered(g, T, q, raw, final, row, p, key);
    } else {
      ConflictOffered(g, T, q, raw, final, row, p, key);
    }
  }

  /** The tables do what the automaton and the lookaheads say. */
  ghost predicate Obeys(g: Packed, A: Automaton, gs: Gotos, nullable: seq<bool>, T: Tables) {
    && World(g, A, gs, nullable) && TablesSound(g, A, T)
    && (forall q: nat, t: nat, n: nat, key: nat :: Goto(A, q, t, n) && TokenWith(g, t, key) ==>
        Offers(T, q, key, Trials.DoShift(n)))
    && (forall q: nat, r: nat, t: nat, key: nat ::
          q < |A.reductions| && r in A.reductions[q] && r > 2 && Lookahead(g, A, gs, nullable, q, r, t) &&
              TokenWith(g, t, key) ==>
          Offers(T, q, key, Trials.DoReduce(r - 2)))
  }

  /** What Generate makes of a grammar where precedence removed nothing. */
  lemma FullTablesObey(g: Packed, A: Automaton, gs: Gotos, nullable: seq<bool>, P: Precedence, la: seq<nat>,
                       ruleno: seq<nat>, LA: seq<set<nat>>, raws: seq<seq<Action>>, parser: seq<seq<Action>>,
                       defred: seq<nat>, T: Tables)
    requires World(g, A, gs, nullable) && Covers(P, g) && LookaheadsOK(g, A, gs, nullable, la, ruleno, LA)
    requires ParserOK(g, A, P, la, LA, T.final, raws, parser, defred) && TablesOK(g, A, parser, defred, T.final, T) &&
        TablesSound(g, A, T)
    requires RowsReady(g.ntokens, raws, parser, T.final) && forall q :: 0 <= q < |parser| ==> NoneRemoved(parser[q])
    ensures Obeys(g, A, gs, nullable, T)
  {
    forall q: nat, t: nat, n: nat, key: nat | Goto(A, q, t, n) && TokenWith(g, t, key)
      ensures Offers(T, q, key, Trials.DoShift(n))
    {
      ShiftObeyed(g, A, P, la, LA, raws, parser, defred, T, q, t, n, key);
    }
    forall q: nat, r: nat, t: nat, key: nat |
      q < |A.reductions| && r in A.reductions[q] && r > 2 && Lookahead(g, A, gs, nullable, q, r, t) &&
          TokenWith(g, t, key)
      ensures Offers(T, q, key, Trials.DoReduce(r - 2))
    {
      ReduceObeyed(g, A, gs, nullable, P, la, ruleno, LA, raws, parser, defred, T, q, r, t, key);
    }
  }

  lemma FullState(g: Packed, A: Automaton, P: Precedence, la: seq<nat>, LA: seq<set<nat>>, raws: seq<seq<Action>>,
                  parser: seq<seq<Action>>, defred: seq<nat>, T: Tables, q: nat)
    requires Values(g) && Canonical(g, A) && Covers(P, g) && ParserOK(g, A, P, la, LA, T.final, raws, parser, defred)
    requires TablesOK(g, A, parser, defred, T.final, T) && TablesSound(g, A, T) && q < |A.states| &&
        NoneRemoved(parser[q])
    requires RowsReady(g.ntokens, raws, parser, T.final)
    ensures FullRow(g, T, q, raws[q], q == T.final, parser[q], defred[q]) && RawActions(g, A, P, la, LA, q, raws[q])
  {
    hide Packed.WellFormed, Canonical, StateSound, Judged, OnlyRule, RawActions, StateReads, NaturalCodes,
        Packed.DistinctCodes;
    assert RowOK(g, A, P, la, LA, T.final, q, raws[q], parser[q], defred[q]);
    RawOrdered(g, A, P, la, LA, q, raws[q]);
    assert RowReady(g.ntokens, raws[q], parser[q], q == T.final);
  }

  lemma RawOrdered(g: Packed, A: Automaton, P: Precedence, la: seq<nat>, LA: seq<set<nat>>, q: nat, raw: seq<Action>)
    requires Covers(P, g) && RawActions(g, A, P, la, LA, q, raw)
    ensures Ordered(raw)
  {}

  /** A raw action as it is in the resolved row. */
  lemma InRow(raw: seq<Action>, final: bool, row: seq<Action>, a: Action) returns (p: nat)
    requires Judged(raw, final, |raw|, row) && a in raw
    ensures p < |row| && row[p].symbol == a.symbol && Performing(row[p]) == Performing(a) && row[p].code == a.code &&
        row[p].number == a.number
  {
    p :| 0 <= p < |raw| && raw[p] == a;
  }

  lemma ShiftObeyed(g: Packed, A: Automaton, P: Precedence, la: seq<nat>, LA: seq<set<nat>>, raws: seq<seq<Action>>,
                    parser: seq<seq<Action>>, defred: seq<nat>, T: Tables, q: nat, t: nat, n: nat, key: nat)
    requires Values(g) && Canonical(g, A) && Covers(P, g) && ParserOK(g, A, P, la, LA, T.final, raws, parser, defred)
    requires TablesOK(g, A, parser, defred, T.final, T) && TablesSound(g, A, T) &&
        RowsReady(g.ntokens, raws, parser, T.final)
    requires forall q :: 0 <= q < |parser| ==> NoneRemoved(parser[q])
    requires Goto(A, q, t, n) && TokenWith(g, t, key)
    ensures Offers(T, q, key, Trials.DoShift(n))
  {
    hide StateSound, Judged, OnlyRule, StateReads, Offers, RowsReady;
    FullState(g, A, P, la, LA, raws, parser, defred, T, q);
    GotoItems(g, A, q, t, n);
    var a := ShiftAction(P, t, n);
    assert IsShift(g, A, P, q, a);
    var p := InRow(raws[q], q == T.final, parser[q], a);
    RowOffers(g, T, q, raws[q], q == T.final, parser[q], defred[q], p, key);
  }

  lemma ReduceObeyed(g: Packed, A: Automaton, gs: Gotos, nullable: seq<bool>, P: Precedence, la: seq<nat>,
                     ruleno: seq<nat>, LA: seq<set<nat>>, raws: seq<seq<Action>>, parser: seq<seq<Action>>,
                     defred: seq<nat>, T: Tables, q: nat, r: nat, t: nat, key: nat)
    requires Values(g) && Canonical(g, A) && Covers(P, g) && ParserOK(g, A, P, la, LA, T.final, raws, parser, defred)
    requires TablesOK(g, A, parser, defred, T.final, T) && TablesSound(g, A, T) &&
        LookaheadsOK(g, A, gs, nullable, la, ruleno, LA)
    requires RowsReady(g.ntokens, raws, parser, T.final) && forall q :: 0 <= q < |parser| ==> NoneRemoved(parser[q])
    requires q < |A.reductions| && r in A.reductions[q] && r > 2 && Lookahead(g, A, gs, nullable, q, r, t) &&
        TokenWith(g, t, key)
    ensures Offers(T, q, key, Trials.DoReduce(r - 2))
  {
    hide StateSound, Judged, OnlyRule, StateReads, Offers, RowsReady, Lookahead;
    FullState(g, A, P, la, LA, raws, parser, defred, T, q);
    var k :| 0 <= k < |A.reductions[q]| && A.reductions[q][k] == r;
    RuleOfReduction(g, A, q, k);
    var a := ReduceAction(P, t, r);
    assert ReducesAs(A, P, la, LA, g.ntokens, q, k, a);
    assert IsReduce(A, P, la, LA, g.ntokens, q, a);
    var p := InRow(raws[q], q == T.final, parser[q], a);
    RowOffers(g, T, q, raws[q], q == T.final, parser[q], defred[q], p, key);
  }

  /** The input from pos on starts with w. */
  ghost predicate Reading(input: nat -> Lexeme, pos: nat, w: seq<Lexeme>) {
    forall j :: 0 <= j < |w| ==> input(pos + j) == w[j]
  }

  lemma ReadingParts(input: nat -> Lexeme, pos: nat, v: seq<Lexeme>, w: seq<Lexeme>)
    requires Reading(input, pos, v + w)
    ensures Reading(input, pos, v) && Reading(input, pos + |v|, w)
  {
    forall j | 0 <= j < |v|
      ensures input(pos + j) == v[j]
    {
      assert (v + w)[j] == v[j];
    }
    forall j | 0 <= j < |w|
      ensures input(pos + |v| + j) == w[j]
    {
      assert (v + w)[|v| + j] == w[j];
    }
  }

  /** Action a can be taken at k, if need be as an alternative of a conflict. */
  ghost predicate MayDo(T: Tables, input: nat -> Lexeme, k: Trials.Spot, a: Trials.Action)
    requires Shaped(T)
  {
    Offers(T, Trials.Top(k.stack), Norm(input(k.pos).code), a)
  }

  /** n actions, rightly chosen, lead from k to l. */
  ghost predicate MayLead(T: Tables, input: nat -> Lexeme, k: Trials.Spot, l: Trials.Spot, n: nat)
    requires Shaped(T)
    decreases n, 1
  {
    if n == 0 then k == l else exists a: Trials.Action :: MayLeadBy(T, input, k, l, n, a)
  }

  ghost predicate MayLeadBy(T: Tables, input: nat -> Lexeme, k: Trials.Spot, l: Trials.Spot, n: nat, a: Trials.Action)
    requires Shaped(T) && n > 0
    decreases n, 0
  {
    && MayDo(T, input, k, a) && Trials.Perform(T, input, k, a).Next?
    && MayLead(T, input, Trials.Perform(T, input, k, a).spot, l, n - 1)
  }

  /** Actions rightly chosen from k on end the parse, with a at l after n others. */
  ghost predicate EndsBy(T: Tables, input: nat -> Lexeme, k: Trials.Spot, l: Trials.Spot, n: nat, a: Trials.Action)
    requires Shaped(T)
  {
    MayLead(T, input, k, l, n) && MayDo(T, input, l, a) && Trials.Perform(T, input, l, a).Done?
  }

  ghost predicate Finishes(T: Tables, input: nat -> Lexeme, k: Trials.Spot)
    requires Shaped(T)
  {
    exists l: Trials.Spot, n: nat, a: Trials.Action :: EndsBy(T, input, k, l, n, a)
  }

  ghost predicate Reaches(T: Tables, input: nat -> Lexeme, k: Trials.Spot, l: Trials.Spot)
    requires Shaped(T)
  {
    Finishes(T, input, k) || exists n: nat :: MayLead(T, input, k, l, n)
  }

  lemma {:induction false} MayLeadSum(T: Tables, input: nat -> Lexeme, k: Trials.Spot, l: Trials.Spot, m: Trials.Spot,
                                      a: nat, b: nat)
    requires Shaped(T) && MayLead(T, input, k, l, a) && MayLead(T, input, l, m, b)
    ensures MayLead(T, input, k, m, a + b)
    decreases a
  {
    if a > 0 {
      var act: Trials.Action :| MayLeadBy(T, input, k, l, a, act);
      MayLeadSum(T, input, Trials.Perform(T, input, k, act).spot, l, m, a - 1, b);
      assert MayLeadBy(T, input, k, m, a + b, act);
    }
  }

  lemma ReachesTrans(T: Tables, input: nat -> Lexeme, k: Trials.Spot, l: Trials.Spot, m: Trials.Spot)
    requires Shaped(T) && Reaches(T, input, k, l) && Reaches(T, input, l, m)
    ensures Reaches(T, input, k, m)
  {
    if !Finishes(T, input, k) {
      var a: nat :| MayLead(T, input, k, l, a);
      if Finishes(T, input, l) {
        var e: Trials.Spot, n: nat, act: Trials.Action :| EndsBy(T, input, l, e, n, act);
        MayLeadSum(T, input, k, l, e, a, n);
        assert EndsBy(T, input, k, e, a + n, act);
      } else {
        var b: nat :| MayLead(T, input, l, m, b);
        MayLeadSum(T, input, k, l, m, a, b);
      }
    }
  }

  lemma ReachesSelf(T: Tables, input: nat -> Lexeme, k: Trials.Spot)
    requires Shaped(T)
    ensures Reaches(T, input, k, k)
  {
    assert MayLead(T, input, k, k, 0);
  }

  /** One action. */
  lemma StepReaches(T: Tables, input: nat -> Lexeme, k: Trials.Spot, l: Trials.Spot, a: Trials.Action)
    requires Shaped(T) && MayDo(T, input, k, a)
    requires Trials.Perform(T, input, k, a).Done? || Trials.Perform(T, input, k, a) == Trials.Next(l)
    ensures Reaches(T, input, k, l)
  {
    assert MayLead(T, input, k, k, 0);
    if Trials.Perform(T, input, k, a).Done? {
      assert EndsBy(T, input, k, k, 0, a);
    } else {
      assert MayLead(T, input, l, l, 0);
      assert MayLeadBy(T, input, k, l, 1, a);
      assert MayLead(T, input, k, l, 1);
    }
  }

  /** The spot after a phrase t has been read and its state q pushed. */
  ghost function Past(k: Trials.Spot, q: nat, t: Tree): Trials.Spot {
    Trials.Spot(Pushed(k.stack, q, t), k.pos + |Yield(t)|)
  }

  ghost predicate Upright(k: Trials.Spot, q: nat) {
    |k.stack.ss| == |k.stack.vals| + 1 && Trials.Top(k.stack) == q
  }

  /** A token is shifted. */
  lemma TokenRead(g: Packed, A: Automaton, gs: Gotos, nullable: seq<bool>, T: Tables, input: nat -> Lexeme,
                  k: Trials.Spot, q: nat, t: Tree, X: nat, n: nat)
    requires Obeys(g, A, gs, nullable, T) && Upright(k, q) && t.Leaf? && Parses(g.ToCfg(), t, X) && X < g.ntokens &&
        Goto(A, q, X, n)
    requires Reading(input, k.pos, Yield(t))
    ensures Reaches(T, input, k, Past(k, n, t))
  {
    assert input(k.pos + 0) == Yield(t)[0] == t.lexeme;
    assert TokenWith(g, X, t.lexeme.code) && Norm(t.lexeme.code) == t.lexeme.code;
    assert MayDo(T, input, k, Trials.DoShift(n));
    StepReaches(T, input, k, Past(k, n, t), Trials.DoShift(n));
  }

  /** The children before the j-th have been read from k on. */
  ghost predicate PartRead(k: Trials.Spot, t: Tree, j: nat, kj: Trials.Spot)
    requires t.Node? && j <= |t.children|
  {
    && |kj.stack.ss| == |k.stack.ss| + j && k.stack.ss <= kj.stack.ss && |k.stack.ss| == |k.stack.vals| + 1
    && kj.stack.vals == k.stack.vals + t.children[..j] && kj.pos == k.pos + |YieldAll(t.children[..j])|
  }

  lemma PartReadMore(k: Trials.Spot, t: Tree, j: nat, kj: Trials.Spot, q: nat)
    requires t.Node? && j < |t.children| && PartRead(k, t, j, kj)
    ensures PartRead(k, t, j + 1, Past(kj, q, t.children[j])) && Upright(Past(kj, q, t.children[j]), q)
  {
    YieldSplit(t.children, j);
    assert t.children[..j + 1] == t.children[..j] + [t.children[j]];
  }

  /** A phrase read to its end is reduced, and its left-hand side pushed. */
  lemma PhraseReduced(g: Packed, A: Automaton, gs: Gotos, nullable: seq<bool>, T: Tables, input: nat -> Lexeme,
                      k: Trials.Spot, q: nat, t: Tree, e: Trials.Spot, qe: nat, n: nat, after: nat)
    requires Obeys(g, A, gs, nullable, T) && Upright(k, q) && t.Node? && 3 <= t.rule + 2 < |g.rlhs| &&
        |t.children| == |g.Rhs(t.rule + 2)|
    requires PartRead(k, t, |t.children|, e) && Upright(e, qe) && qe < |A.states|
    requires n < |gs.to| && IsNumber(A, gs, n, q, g.rlhs[t.rule + 2], gs.to[n]) && Walks(A, q, g.Rhs(t.rule + 2), qe)
    requires g.rrhs[t.rule + 2] + |t.children| in ItemsOf(g, A, qe)
    requires Follows(g, A, gs, nullable, n, after) && TokenWith(g, after, Norm(input(e.pos).code))
    ensures Reduction(T, e.stack, t.rule) ==
            Reduced(Pushed(k.stack, gs.to[n], t), q == 0 && g.rlhs[t.rule + 2] == g.ntokens + 1, t)
    ensures e.pos == k.pos + |Yield(t)| && MayDo(T, input, e, Trials.DoReduce(t.rule))
  {
    hide Packed.WellFormed, Canonical, StateSound, Walks, ItemsOf, Follows, Packed.Rhs, Parses, Setting, Values;
    WorldFacts(g, A, gs, nullable);
    var r, y := t.rule + 2, t.rule;
    var i := PhraseReduces(g, A, gs, nullable, n, r, qe, after);
    assert MayDo(T, input, e, Trials.DoReduce(y));
    assert t.children[..|t.children|] == t.children;
    assert e.stack.vals[|k.stack.vals|..] == t.children && e.stack.vals[..|k.stack.vals|] == k.stack.vals;
    assert e.stack.ss[..|k.stack.ss|] == k.stack.ss;
    LhsPushed(g, A, T, q, y, gs.to[n]);
  }

  /** The state pushed over a left-hand side. */
  lemma LhsPushed(g: Packed, A: Automaton, T: Tables, q: nat, y: nat, n: nat)
    requires TablesSound(g, A, T) && 1 <= y && y + 2 < |g.rlhs| && Goto(A, q, g.rlhs[y + 2], n)
    ensures T.lhs[y] == g.rlhs[y + 2] - g.ntokens - 1 && 0 <= T.lhs[y] < |T.gindex| && T.len[y] == |g.Rhs(y + 2)|
    ensures if q == 0 && T.lhs[y] == 0 then T.final == n else T.GotoTo(q, T.lhs[y]) == n
  {
    if q == 0 && T.lhs[y] == 0 {
      GotoUnique(g, A, 0, g.ntokens + 1, n, T.final);
    }
  }

  /** What lies ahead of the j-th child: its item, and what its transition is followed by. */
  ghost predicate Placed(g: Packed, A: Automaton, gs: Gotos, nullable: seq<bool>, k: Trials.Spot, q: nat, t: Tree,
                         n: nat, j: nat, kj: Trials.Spot, qj: nat)
    requires g.WellFormed()
  {
    && t.Node? && 3 <= t.rule + 2 < |g.rlhs| && j <= |t.children| && ParsesAll(g.ToCfg(), t.children, g.Rhs(t.rule + 2))
    && n < |gs.to| && IsNumber(A, gs, n, q, g.rlhs[t.rule + 2], gs.to[n])
    && PartRead(k, t, j, kj) && Upright(kj, qj) && qj < |A.states|
    && Walks(A, q, g.Rhs(t.rule + 2)[..j], qj) && g.rrhs[t.rule + 2] + j in ItemsOf(g, A, qj)
  }

  /** Reading and reducing a phrase: from before it to past it. */
  lemma {:induction false} PhraseRead(g: Packed, A: Automaton, gs: Gotos, nullable: seq<bool>, T: Tables,
                                      input: nat -> Lexeme, k: Trials.Spot, q: nat, i: nat, t: Tree, X: nat, n: nat,
                                      after: nat)
    requires Obeys(g, A, gs, nullable, T) && Upright(k, q) && DotBefore(g, A, q, i, X) && 0 < X < g.nsyms &&
        X != g.ntokens
    requires Parses(g.ToCfg(), t, X) && Reading(input, k.pos, Yield(t)) && Goto(A, q, X, n)
    requires TokenWith(g, after, Norm(input(k.pos + |Yield(t)|).code))
    requires X > g.ntokens ==> forall m: nat :: IsNumber(A, gs, m, q, X, n) ==> Follows(g, A, gs, nullable, m, after)
    ensures Reaches(T, input, k, Past(k, n, t))
    decreases t, 1, 0
  {
    hide Obeys, Shaped, Packed.WellFormed, Packed.ToCfg, Parses, Goto, Reaches, Reading, DotBefore, Upright, Follows,
        Trials.Perform, MayDo;
    ObeysSound(g, A, gs, nullable, T);
    if t.Leaf? {
      LeafToken(g, t, X);
      TokenRead(g, A, gs, nullable, T, input, k, q, t, X, n);
    } else {
      var e := ChildrenOf(g, A, gs, nullable, T, input, k, q, i, t, X, n, after);
      var l := Past(k, n, t);
      StepReaches(T, input, e, l, Trials.DoReduce(t.rule));
      ReachesTrans(T, input, k, e, l);
    }
  }

  /** The phrase before its first child, with the number of its transition. */
  lemma PlaceStart(g: Packed, A: Automaton, gs: Gotos, nullable: seq<bool>, k: Trials.Spot, q: nat, i: nat, t: Tree,
                   X: nat, n: nat) returns (m: nat)
    requires World(g, A, gs, nullable) && Upright(k, q) && DotBefore(g, A, q, i, X) && 0 < X < g.nsyms && X != g.ntokens
    requires t.Node? && Parses(g.ToCfg(), t, X) && Goto(A, q, X, n)
    ensures X > g.ntokens && Placed(g, A, gs, nullable, k, q, t, m, 0, k, q) && g.rlhs[t.rule + 2] == X &&
        IsNumber(A, gs, m, q, X, n)
  {
    NodeRule(g, t, X);
    RuleStarts(g, A, q, i, t.rule + 2);
    m := TransitionNumber(g, A, gs, q, X, n);
    assert t.children[..0] == [] && g.Rhs(t.rule + 2)[..0] == [];
  }

  /** The token after child j. */
  lemma TokenAfter(g: Packed, A: Automaton, gs: Gotos, nullable: seq<bool>, input: nat -> Lexeme, k: Trials.Spot,
                   q: nat, t: Tree, m: nat, j: nat, kj: Trials.Spot, qj: nat, n: nat, after: nat) returns (tok: nat)
    requires World(g, A, gs, nullable) && Placed(g, A, gs, nullable, k, q, t, m, j, kj, qj) && j < |t.children|
    requires n < |A.states| && g.rrhs[t.rule + 2] + j + 1 in ItemsOf(g, A, n)
    requires Reading(input, k.pos, Yield(t)) && TokenWith(g, after, Norm(input(k.pos + |Yield(t)|).code))
    ensures NextToken(g, t, j + 1, after, tok) && TokenWith(g, tok, Norm(input(kj.pos + |Yield(t.children[j])|).code))
    ensures Reading(input, kj.pos, Yield(t.children[j]))
  {
    hide Packed.WellFormed, Canonical, ItemsOf, Parses, Setting, Walks, Packed.Rhs, NaturalCodes, GotosOK, YieldAll;
    WorldFacts(g, A, gs, nullable);
    ChildAhead(input, k, t, j, kj);
    if YieldAll(t.children[j + 1..]) == [] {
      tok := after;
    } else {
      tok := FirstReadFrom(g, A, gs, nullable, n, t, j + 1);
      CodeStays(g, tok, YieldAll(t.children[j + 1..])[0].code);
    }
  }

  lemma CodeStays(g: Packed, tok: nat, code: int)
    requires NaturalCodes(g) && TokenWith(g, tok, code)
    ensures Norm(code) == code
  {}

  /** The input ahead of a child: the child, and then the first of the rest or what follows the phrase. */
  lemma ChildAhead(input: nat -> Lexeme, k: Trials.Spot, t: Tree, j: nat, kj: Trials.Spot)
    requires t.Node? && j < |t.children| && PartRead(k, t, j, kj) && Reading(input, k.pos, Yield(t))
    ensures Reading(input, kj.pos, Yield(t.children[j]))
    ensures var rest := YieldAll(t.children[j + 1..]); var l := kj.pos + |Yield(t.children[j])|;
            if rest == [] then l == k.pos + |Yield(t)| else input(l) == rest[0]
  {
    var cs := t.children;
    YieldSplit(cs, j);
    YieldHalves(cs, j);
    YieldHalves(cs, j + 1);
    ReadingParts(input, k.pos, YieldAll(cs[..j]), YieldAll(cs[j..]));
    ReadingParts(input, kj.pos, Yield(cs[j]), YieldAll(cs[j + 1..]));
    var rest := YieldAll(cs[j + 1..]);
    if rest != [] {
      assert input(kj.pos + |Yield(cs[j])| + 0) == rest[0];
    }
  }

  lemma YieldHalves(cs: seq<Tree>, j: nat)
    requires j <= |cs|
    ensures YieldAll(cs) == YieldAll(cs[..j]) + YieldAll(cs[j..])
  {
    assert cs == cs[..j] + cs[j..];
    YieldAllConcat(cs[..j], cs[j..]);
  }

  lemma PlaceNext(g: Packed, A: Automaton, gs: Gotos, nullable: seq<bool>, k: Trials.Spot, q: nat, t: Tree, m: nat,
                  j: nat, kj: Trials.Spot, qj: nat, n: nat)
    requires g.WellFormed() && Placed(g, A, gs, nullable, k, q, t, m, j, kj, qj) && j < |t.children| && n < |A.states|
    requires Goto(A, qj, g.Rhs(t.rule + 2)[j], n) && g.rrhs[t.rule + 2] + j + 1 in ItemsOf(g, A, n)
    ensures Placed(g, A, gs, nullable, k, q, t, m, j + 1, Past(kj, n, t.children[j]), n)
  {
    var Xs := g.Rhs(t.rule + 2)[..j + 1];
    assert Xs[..|Xs| - 1] == g.Rhs(t.rule + 2)[..j];
    assert WalksThrough(A, q, Xs, n, qj);
    PartReadMore(k, t, j, kj, n);
  }

  /** The children from the j-th on are read in turn. */
  lemma {:induction false} ChildrenRead(g: Packed, A: Automaton, gs: Gotos, nullable: seq<bool>, T: Tables,
                                        input: nat -> Lexeme, k: Trials.Spot, q: nat, t: Tree, m: nat, j: nat,
                                        kj: Trials.Spot, qj: nat, after: nat) returns (e: Trials.Spot, qe: nat)
    requires Obeys(g, A, gs, nullable, T) && Placed(g, A, gs, nullable, k, q, t, m, j, kj, qj) && gs.to[m] < |A.states|
    requires Reading(input, k.pos, Yield(t)) && TokenWith(g, after, Norm(input(k.pos + |Yield(t)|).code)) &&
        Follows(g, A, gs, nullable, m, after)
    ensures Reaches(T, input, kj, e) && Placed(g, A, gs, nullable, k, q, t, m, |t.children|, e, qe)
    decreases t, 0, |t.children| - j
  {
    hide Packed.WellFormed, Canonical, StateSound, Walks, ItemsOf, Follows, Packed.Rhs, Parses, Setting, Values,
        TablesSound, Goto, Reaches, Reading, PartRead, Upright, GotosOK, MayDo;
    WorldFacts(g, A, gs, nullable);
    TablesShaped(g, A, T);
    if j == |t.children| {
      e, qe := kj, qj;
      ReachesSelf(T, input, kj);
    } else {
      DotInside(g, A, qj, t.rule + 2, j);
      var X := g.Rhs(t.rule + 2)[j];
      var n := GotoExists(g, A, qj, g.rrhs[t.rule + 2] + j);
      GotoInRange(A, qj, X, n);
      var tok := TokenAfter(g, A, gs, nullable, input, k, q, t, m, j, kj, qj, n, after);
      forall l: nat | IsNumber(A, gs, l, qj, X, n)
        ensures Follows(g, A, gs, nullable, l, tok)
      {
        NumberSymbol(g, A, gs, m, q, g.rlhs[t.rule + 2], gs.to[m]);
        ChildFollowed(g, A, gs, nullable, m, t, j, qj, n, l, after, tok);
      }
      PlaceNext(g, A, gs, nullable, k, q, t, m, j, kj, qj, n);
      var next := Past(kj, n, t.children[j]);
      ChildUpright(g, A, gs, nullable, k, q, t, m, j, kj, qj);
      PhraseRead(g, A, gs, nullable, T, input, kj, qj, g.rrhs[t.rule + 2] + j, t.children[j], X, n, tok);
      e, qe := ChildrenRead(g, A, gs, nullable, T, input, k, q, t, m, j + 1, next, n, after);
      ReachesTrans(T, input, kj, next, e);
    }
  }

  lemma ChildUpright(g: Packed, A: Automaton, gs: Gotos, nullable: seq<bool>, k: Trials.Spot, q: nat, t: Tree, m: nat,
                     j: nat, kj: Trials.Spot, qj: nat)
    requires g.WellFormed() && Placed(g, A, gs, nullable, k, q, t, m, j, kj, qj) && j < |t.children|
    ensures Upright(kj, qj) && Parses(g.ToCfg(), t.children[j], g.Rhs(t.rule + 2)[j])
  {}

  lemma NumberSymbol(g: Packed, A: Automaton, gs: Gotos, m: nat, q: nat, X: nat, n: nat)
    requires IsNumber(A, gs, m, q, X, n)
    ensures gs.from[m] == q && gs.to[m] == n < |A.states| && SymbolOf(A, gs, m) == X
  {}

  /** All children read, the phrase is reduced next. */
  lemma ChildrenOf(g: Packed, A: Automaton, gs: Gotos, nullable: seq<bool>, T: Tables, input: nat -> Lexeme,
                   k: Trials.Spot, q: nat, i: nat, t: Tree, X: nat, n: nat, after: nat) returns (e: Trials.Spot)
    requires Obeys(g, A, gs, nullable, T) && Upright(k, q) && DotBefore(g, A, q, i, X) && 0 < X < g.nsyms &&
        X != g.ntokens
    requires t.Node? && Parses(g.ToCfg(), t, X) && Reading(input, k.pos, Yield(t)) && Goto(A, q, X, n)
    requires TokenWith(g, after, Norm(input(k.pos + |Yield(t)|).code))
    requires X > g.ntokens ==> forall m: nat :: IsNumber(A, gs, m, q, X, n) ==> Follows(g, A, gs, nullable, m, after)
    ensures Reaches(T, input, k, e) && e.pos == k.pos + |Yield(t)|
    ensures MayDo(T, input, e, Trials.DoReduce(t.rule))
    ensures var m := Trials.Perform(T, input, e, Trials.DoReduce(t.rule));
            if q == 0 && X == g.ntokens + 1 && Norm(input(e.pos).code) == 0 then m.Done?
                else m == Trials.Next(Past(k, n, t))
    decreases t, 0, |t.children| + 1
  {
    hide Packed.WellFormed, Canonical, StateSound, Walks, ItemsOf, Follows, Parses, Setting, Values, TablesSound, Goto,
        Reaches, Reading, PartRead, Upright, GotosOK, MayDo, Reduction, DotBefore, Packed.ToCfg, Packed.Rhs;
    WorldFacts(g, A, gs, nullable);
    TablesShaped(g, A, T);
    var m := PlaceStart(g, A, gs, nullable, k, q, i, t, X, n);
    NumberSymbol(g, A, gs, m, q, X, n);
    var qe;
    e, qe := ChildrenRead(g, A, gs, nullable, T, input, k, q, t, m, 0, k, q, after);
    assert g.Rhs(t.rule + 2)[..|t.children|] == g.Rhs(t.rule + 2);
    YieldEnds(k, t, e);
    PhraseReduced(g, A, gs, nullable, T, input, k, q, t, e, qe, m, after);
  }

  lemma YieldEnds(k: Trials.Spot, t: Tree, e: Trials.Spot)
    requires t.Node? && PartRead(k, t, |t.children|, e)
    ensures e.pos == k.pos + |Yield(t)|
  {
    assert t.children[..|t.children|] == t.children;
  }

  /** A whole derivation: the parser finishes. */
  lemma SentenceFinishes(g: Packed, A: Automaton, gs: Gotos, nullable: seq<bool>, T: Tables, input: nat -> Lexeme,
                         t: Tree)
    requires Obeys(g, A, gs, nullable, T) && Parses(g.ToCfg(), t, g.ntokens + 1) && Reading(input, 0, Yield(t)) &&
        input(|Yield(t)|).code <= 0
    ensures Finishes(T, input, Search.Origin())
  {
    var k := Search.Origin();
    assert Upright(k, 0);
    GoalPlaced(g, A, gs, nullable);
    assert TokenWith(g, 0, 0);
    GoalIsNode(g, t);
    var n := gs.to[0];
    forall m: nat | IsNumber(A, gs, m, 0, g.ntokens + 1, n)
      ensures Follows(g, A, gs, nullable, m, 0)
    {
      GoalFollowed(g, A, gs, nullable, m);
    }
    var e := ChildrenOf(g, A, gs, nullable, T, input, k, 0, 1, t, g.ntokens + 1, n, 0);
    FinishesAt(T, input, k, e, Trials.DoReduce(t.rule));
  }

  lemma GoalIsNode(g: Packed, t: Tree)
    requires g.WellFormed() && Parses(g.ToCfg(), t, g.ntokens + 1)
    ensures t.Node?
  {}

  lemma FinishesAt(T: Tables, input: nat -> Lexeme, k: Trials.Spot, e: Trials.Spot, a: Trials.Action)
    requires Shaped(T) && Reaches(T, input, k, e) && MayDo(T, input, e, a) && Trials.Perform(T, input, e, a).Done?
    ensures Finishes(T, input, k)
  {
    if !Finishes(T, input, k) {
      var n: nat :| MayLead(T, input, k, e, n);
      assert EndsBy(T, input, k, e, n, a);
    }
  }

  lemma GoalPlaced(g: Packed, A: Automaton, gs: Gotos, nullable: seq<bool>)
    requires World(g, A, gs, nullable)
    ensures DotBefore(g, A, 0, 1, g.ntokens + 1) && |gs.from| == |gs.to| > 0 && Goto(A, 0, g.ntokens + 1, gs.to[0])
  {
    FirstGoto(g, A, gs);
    NumberIsGoto(g, A, gs, 0);
    ClosureStart(g, A);
  }

  lemma ClosureStart(g: Packed, A: Automaton)
    requires g.WellFormed() && Canonical(g, A)
    ensures 0 < |A.states| && 1 in ItemsOf(g, A, 0)
  {
    ClosureIsClosed(g, A.states[0].items);
  }

  /** An end token stands at k, and what is before it is a sentence of the grammar. */
  ghost predicate IsSentence(g: Packed, input: nat -> Lexeme, k: nat)
    requires g.WellFormed()
  {
    input(k).code <= 0 && Derives(g.ToCfg(), g.ntokens + 1, Consumed(input, k))
  }

  lemma FirstAction(T: Tables, input: nat -> Lexeme, k: Trials.Spot, l: Trials.Spot, n: nat) returns (a: Trials.Action)
    requires Shaped(T) && n > 0 && MayLead(T, input, k, l, n)
    ensures MayLeadBy(T, input, k, l, n, a)
  {
    a :| MayLeadBy(T, input, k, l, n, a);
  }

  /** Some sequence of alternatives ends the parse, so not all of them are refuted. */
  lemma {:induction false} NotRefuted(T: Tables, input: nat -> Lexeme, k: Trials.Spot, l: Trials.Spot, n: nat,
                                      a: Trials.Action, R: Search.Refutation)
    requires Shaped(T) && EndsBy(T, input, k, l, n, a) && Search.Refutes(T, input, k, R)
    ensures false
    decreases n
  {
    hide Trials.Perform, Decode, Trials.Alternative;
    var act := a;
    if n > 0 {
      act := FirstAction(T, input, k, l, n);
    }
    var next := Trials.Perform(T, input, k, act);
    if R.n > 0 {
      assert Trials.Onward(T, input, k) == next;
      if n > 0 {
        assert Search.Refutes(T, input, next.spot, R.(n := R.n - 1));
        NotRefuted(T, input, next.spot, l, n - 1, a, R.(n := R.n - 1));
      }
    } else if R.Split? {
      var e := Trials.Decide(T, input, k).e;
      var j: nat :| IsAlternative(T, e, j, act);
      assert Search.Branch(T, input, k, j) == next;
      if n > 0 {
        NotRefuted(T, input, next.spot, l, n - 1, a, R.branches[j]);
      }
    }
  }

  /** Without YYVALID, no run on a sentence fails. */
  lemma SentenceNeverFails(g: Packed, A: Automaton, gs: Gotos, nullable: seq<bool>, T: Tables, input: nat -> Lexeme,
                           yes: nat -> bool, k: nat, n: nat)
    requires Obeys(g, A, gs, nullable, T) && IsSentence(g, input, k) && Search.NeverValid(yes)
    ensures !Run(T, input, yes, n).status.Failed?
  {
    hide Obeys, Run, Search.Refutes, EndsBy, Packed.WellFormed, Shaped;
    ObeysSound(g, A, gs, nullable, T);
    var t :| Parses(g.ToCfg(), t, g.ntokens + 1) && Yield(t) == Consumed(input, k);
    SentenceFinishes(g, A, gs, nullable, T, input, t);
    if Run(T, input, yes, n).status.Failed? {
      Search.FailedIsRefuted(g, A, T, input, yes, n);
      var R: Search.Refutation :| Search.Refutes(T, input, Search.Origin(), R);
      var l: Trials.Spot, m: nat, a: Trials.Action :| EndsBy(T, input, Search.Origin(), l, m, a);
      NotRefuted(T, input, Search.Origin(), l, m, a, R);
    }
  }

  /** Where precedence removed nothing, a run without YYVALID that ends decides: it has accepted exactly
      when the tokens before an end token are derived from the goal. */
  lemma EndedRunDecides(g: Packed, A: Automaton, gs: Gotos, nullable: seq<bool>, T: Tables, input: nat -> Lexeme,
                        yes: nat -> bool, n: nat)
    requires Obeys(g, A, gs, nullable, T) && Shaped(T) && g.WellFormed() && Search.NeverValid(yes) &&
        !Run(T, input, yes, n).status.Running?
    ensures Run(T, input, yes, n).status.Accepted? <==> exists k: nat :: IsSentence(g, input, k)
  {
    hide Obeys, Run, Derives, Packed.WellFormed, Shaped;
    ObeysSound(g, A, gs, nullable, T);
    Skeleton.NeverLost(g, A, T, input, yes, n);
    if Run(T, input, yes, n).status.Accepted? {
      AcceptedIsSentence(g, A, T, input, yes, n);
    }
    if k: nat :| IsSentence(g, input, k) {
      SentenceNeverFails(g, A, gs, nullable, T, input, yes, k, n);
    }
  }

  lemma AcceptedIsSentence(g: Packed, A: Automaton, T: Tables, input: nat -> Lexeme, yes: nat -> bool, n: nat)
    requires TablesSound(g, A, T) && Shaped(T) && g.WellFormed() && Run(T, input, yes, n).status.Accepted?
    ensures exists k: nat :: IsSentence(g, input, k)
  {
    hide TablesSound, Run, Derives, Packed.WellFormed, Shaped;
    Skeleton.Soundness(g, A, T, input, yes, n);
    assert IsSentence(g, input, Skeleton.Taken(Run(T, input, yes, n)));
  }

  lemma ObeysSound(g: Packed, A: Automaton, gs: Gotos, nullable: seq<bool>, T: Tables)
    requires Obeys(g, A, gs, nullable, T)
    ensures TablesSound(g, A, T) && Shaped(T) && g.WellFormed()
  {}

  /** No state finds a conflict on any token. */
  ghost predicate NoForks(T: Tables)
    requires Shaped(T)
  {
    forall q: nat, key: nat {:trigger Peek(T, T.cindex, q, key)} :: Peek(T, T.cindex, q, key).None?
  }

  lemma NoConflictsNoForks(g: Packed, A: Automaton, parser: seq<seq<Action>>, defred: seq<nat>, T: Tables)
    requires g.WellFormed() && TablesOK(g, A, parser, defred, T.final, T) && Shaped(T)
    requires forall q :: 0 <= q < |parser| ==> NoneSuppressed(parser[q])
    ensures NoForks(T)
  {
    forall q: nat, key: nat
      ensures Peek(T, T.cindex, q, key).None?
    {
      if q < |T.cindex| {
        assert StateReads(g, parser[q], defred[q], T, q);
        forall t: nat
          ensures !Counted(parser[q], |parser[q]|, t, defred[q], 2)
        {
          NeverInConflict(parser[q], |parser[q]|, t);
        }
      }
    }
  }

  /** Without conflicts the actions offered are the ones taken. */
  lemma {:induction false} NoForksLead(T: Tables, input: nat -> Lexeme, k: Trials.Spot, l: Trials.Spot, n: nat)
    requires Shaped(T) && NoForks(T) && MayLead(T, input, k, l, n)
    ensures Trials.LeadsIn(T, input, k, l, n)
    decreases n
  {
    if n > 0 {
      var a: Trials.Action :| MayLeadBy(T, input, k, l, n, a);
      OfferTaken(T, input, k, a);
      NoForksLead(T, input, Trials.Perform(T, input, k, a).spot, l, n - 1);
    }
  }

  lemma OfferTaken(T: Tables, input: nat -> Lexeme, k: Trials.Spot, a: Trials.Action)
    requires Shaped(T) && NoForks(T) && MayDo(T, input, k, a)
    ensures Trials.Onward(T, input, k) == Trials.Perform(T, input, k, a)
  {
    assert Peek(T, T.cindex, Trials.Top(k.stack), Norm(input(k.pos).code)).None?;
  }

  lemma FinishedRun(g: Packed, A: Automaton, T: Tables, input: nat -> Lexeme, yes: nat -> bool) returns (n: nat)
    requires TablesSound(g, A, T) && Shaped(T) && NoForks(T) && Finishes(T, input, Search.Origin())
    ensures Run(T, input, yes, n).status.Accepted?
  {
    hide TablesSound, Packed.WellFormed, Trials.PlainStep, Step, PlainRun, Shaped, Trials.Onward, NoForks, MayDo;
    TablesShaped(g, A, T);
    var l: Trials.Spot, m: nat, a: Trials.Action :| EndsBy(T, input, Search.Origin(), l, m, a);
    NoForksLead(T, input, Search.Origin(), l, m);
    OfferTaken(T, input, l, a);
    Search.StartMeans();
    var p := LexemeQueue.Meaning(Run(T, input, yes, 0));
    QuietRun(T, input, p, l, m, yes, 0);
    var w := p.(here := l);
    DoneStep(T, input, w, yes(m));
    SingleStep(T, input, w, yes, m);
    PlainRunSum(T, input, p, yes, 0, m, 1);
    RunMeans(g, A, T, input, yes, 0, m + 1);
    n := m + 1;
    MeaningEnds(Run(T, input, yes, n));
  }

  lemma DoneStep(T: Tables, input: nat -> Lexeme, w: Trials.Plain, valid: bool)
    requires Shaped(T) && w.status.Running? && w.saves == [] && Trials.Onward(T, input, w.here).Done?
    ensures Trials.PlainStep(T, input, w, valid).status.Accepted?
  {}

  /** Completeness without conflicts: a sentence before an end token is accepted, whenever actions
      call YYVALID. */
  lemma SentenceAccepted(g: Packed, A: Automaton, gs: Gotos, nullable: seq<bool>, T: Tables, input: nat -> Lexeme,
                         yes: nat -> bool, k: nat) returns (n: nat)
    requires Obeys(g, A, gs, nullable, T) && Shaped(T) && NoForks(T) && g.WellFormed() && IsSentence(g, input, k)
    ensures Run(T, input, yes, n).status.Accepted?
  {
    hide Obeys, Packed.WellFormed, Shaped, NoForks, Finishes;
    ObeysSound(g, A, gs, nullable, T);
    var t :| Parses(g.ToCfg(), t, g.ntokens + 1) && Yield(t) == Consumed(input, k);
    SentenceFinishes(g, A, gs, nullable, T, input, t);
    n := FinishedRun(g, A, T, input, yes);
  }

  /** Without conflicts the generated parser decides the language: it accepts an input exactly when
      the tokens before an end token are derived from the goal. */
  lemma Decides(g: Packed, A: Automaton, gs: Gotos, nullable: seq<bool>, T: Tables, input: nat -> Lexeme,
                yes: nat -> bool)
    requires Obeys(g, A, gs, nullable, T) && Shaped(T) && NoForks(T) && g.WellFormed()
    ensures Search.Accepts(T, input, yes) <==> exists k: nat :: IsSentence(g, input, k)
  {
    hide Obeys, Run, Derives, Packed.WellFormed, Shaped, NoForks;
    ObeysSound(g, A, gs, nullable, T);
    if n: nat :| Run(T, input, yes, n).status.Accepted? {
      AcceptedIsSentence(g, A, T, input, yes, n);
    }
    if k: nat :| IsSentence(g, input, k) {
      var n := SentenceAccepted(g, A, gs, nullable, T, input, yes, k);
    }
  }
}

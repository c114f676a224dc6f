/** main.c: the stages in order, and what they add up to: the generated parser is sound for the
    grammar it was generated from. */
module Pipeline {
  import opened Defs
  import opened BitRows
  import opened Grammar
  import opened Closure
  import opened LR0
  import opened Paths
  import opened Nullable
  import opened GotoMap
  import opened Relations
  import L = Lalr
  import opened FollowTokens
  import opened Contexts
  import opened MkPar
  import opened TokenActions
  import opened ActionRows
  import opened Output
  import opened Machine
  import opened MachineStacks
  import Skeleton
  import Replay
  import Search
  import opened Completeness
  import Endings
  import Halting
  import LeftRecursion
  import Reader
  import FrontEnd
  import PackGrammar
  import PackSymbols

  /** The rows after conflict resolution are ready for token_actions. */
  lemma ParserIsReady(g: Packed, A: Automaton, P: Precedence, la: seq<nat>, LA: seq<set<nat>>, finalState: nat,
                      raws: seq<seq<Action>>, parser: seq<seq<Action>>, defred: seq<nat>)
    requires g.WellFormed() && Canonical(g, A) && Covers(P, g) &&
        ParserOK(g, A, P, la, LA, finalState, raws, parser, defred)
    ensures RowsReady(g.ntokens, raws, parser, finalState)
  {
    forall q: nat | q < |parser|
      ensures RowReady(g.ntokens, raws[q], parser[q], q == finalState)
    {
      assert RowOK(g, A, P, la, LA, finalState, q, raws[q], parser[q], defred[q]);
      RowIsReady(g, A, P, la, LA, q == finalState, q, raws[q], parser[q]);
    }
  }

  lemma RowIsReady(g: Packed, A: Automaton, P: Precedence, la: seq<nat>, LA: seq<set<nat>>, final: bool, q: nat,
                   raw: seq<Action>, row: seq<Action>)
    requires g.WellFormed() && Canonical(g, A) && Covers(P, g) && q < |A.states|
    requires RawActions(g, A, P, la, LA, q, raw) && Judged(raw, final, |raw|, row)
    ensures RowReady(g.ntokens, raw, row, final)
  {
    RawFacts(g, A, P, la, LA, q, raw);
    JudgedIsFunded(raw, row, final);
    forall a | a in row
      ensures a.symbol < g.ntokens && (a.code == Reduce ==> a.number >= 2) && (a.code == Shift ==> a.number >= 1)
    {
      var p :| 0 <= p < |row| && row[p] == a;
      assert raw[p] in raw;
    }
    forall p, r | 0 <= p < r < |row|
      ensures row[p].symbol <= row[r].symbol
      ensures row[p].symbol == row[r].symbol ==> row[p].suppressed != 0 || row[r].suppressed != 0
    {
      assert Before(raw[p], raw[r]);
      if row[p].symbol == row[r].symbol {
        AtMostOneStands(raw, final, row, p, r);
      }
    }
  }

  lemma KernelHasNoEnd(g: Packed, A: Automaton, q: nat)
    requires g.WellFormed() && Canonical(g, A) && q < |A.states|
    ensures 3 !in A.states[q].items
  {
    if q > 0 {
      assert KernelOK(g, A.states[q]);
    }
  }

  /** Item 3, the end of the start rule, is in no state: the end token is never shifted. */
  lemma StartNeverEnds(g: Packed, A: Automaton, q: nat)
    requires g.WellFormed() && Canonical(g, A) && q < |A.states|
    ensures 3 !in ItemsOf(g, A, q)
  {
    KernelHasNoEnd(g, A, q);
    if 3 in ItemsOf(g, A, q) {
      var x := PredictedFrom(g, A.states[q].items, 3);
      var s: nat :| 2 <= s < |g.rlhs| && g.rlhs[s] == g.ritem[x] && g.rrhs[s] == 3;
      RrhsAscends(g, 2, s);
      if s > 2 {
        RrhsAscends(g, 3, s);
      }
      assert false;
    }
  }

  /** A recorded reduction is by a rule complete in the state. */
  lemma ReductionIsSound(g: Packed, A: Automaton, q: nat, r: nat)
    requires g.WellFormed() && Canonical(g, A) && q < |A.states| && r in A.reductions[q]
    ensures ReduceSound(g, A, q, r - 2)
  {
    assert RowsOK(g, A.states, A.shifts, A.reductions, q);
    var i: nat :| i in ItemsOf(g, A, q) && i < |g.ritem| && g.ritem[i] < 0 && g.ritem[i] + r == 0;
    ItemsInRules(g, A, q, i);
    var s := ItemHasRule(g, i);
    ItemAt(g, i, s);
    StartNeverEnds(g, A, q);
  }

  /** What an action of state q may be. */
  ghost predicate ActionFits(g: Packed, A: Automaton, q: nat, a: Action) {
    if a.code == Shift then a.symbol < g.ntokens && Goto(A, q, a.symbol, a.number)
        else ReduceSound(g, A, q, a.number - 2)
  }

  ghost predicate RowFits(g: Packed, A: Automaton, q: nat, row: seq<Action>) {
    && (forall p :: 0 <= p < |row| ==> ActionFits(g, A, q, row[p]))
    && forall p, r :: 0 <= p < r < |row| && row[p].symbol == row[r].symbol ==> row[r].code == Reduce
  }

  lemma RowIsFit(g: Packed, A: Automaton, P: Precedence, la: seq<nat>, LA: seq<set<nat>>, final: bool, q: nat,
                 raw: seq<Action>, row: seq<Action>)
    requires g.WellFormed() && Canonical(g, A) && Covers(P, g) && q < |A.states|
    requires RawActions(g, A, P, la, LA, q, raw) && Judged(raw, final, |raw|, row)
    ensures RowFits(g, A, q, row)
  {
    forall p | 0 <= p < |row|
      ensures ActionFits(g, A, q, row[p])
    {
      assert raw[p] in raw;
      if IsReduce(A, P, la, LA, g.ntokens, q, raw[p]) {
        var k: nat :| k < |A.reductions[q]| && ReducesAs(A, P, la, LA, g.ntokens, q, k, raw[p]);
        ReductionIsSound(g, A, q, raw[p].number);
      }
    }
    forall p, r | 0 <= p < r < |row| && row[p].symbol == row[r].symbol
      ensures row[r].code == Reduce
    {
      assert Before(raw[p], raw[r]);
    }
  }

  lemma {:induction false} ShiftFits(g: Packed, A: Automaton, q: nat, row: seq<Action>, n: nat, t: nat)
    requires RowFits(g, A, q, row) && n <= |row| && ShiftOf(row, n, t) != 0
    ensures t < g.ntokens && Goto(A, q, t, ShiftOf(row, n, t))
  {
    assert ActionFits(g, A, q, row[n - 1]);
    if !(row[n - 1].symbol == t && row[n - 1].suppressed == 0 && row[n - 1].code == Shift) {
      ShiftFits(g, A, q, row, n - 1, t);
    }
  }

  lemma {:induction false} ReduceFits(g: Packed, A: Automaton, q: nat, row: seq<Action>, n: nat, t: nat, defred: nat)
    requires RowFits(g, A, q, row) && n <= |row| && ReduceOf(row, n, t, defred) != 0
    ensures ReduceSound(g, A, q, ReduceOf(row, n, t, defred) - 2)
  {
    var a := row[n - 1];
    assert ActionFits(g, A, q, a);
    if !(a.symbol == t && a.suppressed == 0 && a.code == Reduce && a.number != defred) {
      ReduceFits(g, A, q, row, n - 1, t, defred);
    }
  }

  /** Alternative j of the list comes from a listed action: a shift only if it is the first. */
  lemma {:induction false} ListElement(row: seq<Action>, n: nat, t: nat, j: nat) returns (p: nat)
    requires n <= |row| && j < |ListOf(row, n, t, 0)|
    requires forall p, r :: 0 <= p < r < |row| && row[p].symbol == row[r].symbol ==> row[r].code == Reduce
    ensures p < n && Listed(row[p], t, 0) && ListOf(row, n, t, 0)[j] == Entry(row[p])
    ensures j > 0 ==> row[p].code == Reduce
    ensures j == 0 ==> (row[p].code == Reduce <==> ReduceLeads(row, n, t, 0))
  {
    var shorter := ListOf(row, n - 1, t, 0);
    if j < |shorter| {
      p := ListElement(row, n - 1, t, j);
    } else {
      p := n - 1;
      if j > 0 {
        var r := ListElement(row, n - 1, t, 0);
      }
    }
  }

  /** Without a default reduction every token in conflict has a list. */
  lemma {:induction false} ConflictHasList(row: seq<Action>, n: nat, t: nat)
    requires n <= |row| && AnyConflict(row, n, t) && forall p :: 0 <= p < |row| && row[p].code == Reduce ==>
        row[p].number >= 2
    ensures ListOf(row, n, t, 0) != []
  {
    if !InConflict(row[n - 1], t) {
      ConflictHasList(row, n - 1, t);
    }
  }

  lemma ListFits(g: Packed, A: Automaton, T: Tables, q: nat, row: seq<Action>, t: nat, key: nat, e: int)
    requires RowFits(g, A, q, row) && TokenWith(g, t, key) && AnyConflict(row, |row|, t) && e >= 0
    requires Kept(T.ctable, e + 1, ListOf(row, |row|, t, 0), ReduceLeads(row, |row|, t, 0))
    ensures ListSound(g, A, T, q, key, e)
  {
    var values, reduceFirst := ListOf(row, |row|, t, 0), ReduceLeads(row, |row|, t, 0);
    forall p | 0 <= p < |row| && row[p].code == Reduce
      ensures row[p].number >= 2
    {
      assert ActionFits(g, A, q, row[p]);
    }
    ConflictHasList(row, |row|, t);
    forall j: nat | j < |values|
      ensures values[j] >= 0 && AlternativeSound(g, A, q, key, values, reduceFirst, j)
    {
      var p := ListElement(row, |row|, t, j);
      assert ActionFits(g, A, q, row[p]);
    }
    assert ListIs(g, A, T, q, key, e, values, reduceFirst);
  }

  /** The entries of one state. */
  lemma StateIsSound(g: Packed, A: Automaton, T: Tables, q: nat, row: seq<Action>, defred: nat)
    requires Shaped(T) && q < |T.sindex| && RowFits(g, A, q, row) && StateReads(g, row, defred, T, q)
    requires T.defred[q] == DefaultOut(defred) && (defred > 0 ==> OnlyRule(row, defred))
    ensures StateSound(g, A, T, q)
  {
    DefaultFits(g, A, q, row, defred);
    forall key: nat | Peek(T, T.sindex, q, key).Some?
      ensures ShiftSound(g, A, q, key, Peek(T, T.sindex, q, key).value)
    {
      var t: nat :| TokenWith(g, t, key) && Counted(row, |row|, t, defred, 0);
      ShiftFits(g, A, q, row, |row|, t);
      assert TokenReads(row, defred, T, q, t, key);
    }
    forall key: nat | Peek(T, T.rindex, q, key).Some?
      ensures ReduceSound(g, A, q, Peek(T, T.rindex, q, key).value)
    {
      var t: nat :| TokenWith(g, t, key) && Counted(row, |row|, t, defred, 1);
      ReduceFits(g, A, q, row, |row|, t, defred);
      assert TokenReads(row, defred, T, q, t, key);
    }
    forall key: nat | T.defred[q] == 0 && Peek(T, T.cindex, q, key).Some?
      ensures ListSound(g, A, T, q, key, Peek(T, T.cindex, q, key).value)
    {
      var t: nat :| TokenWith(g, t, key) && Counted(row, |row|, t, defred, 2);
      assert TokenReads(row, defred, T, q, t, key);
      ListFits(g, A, T, q, row, t, key, Peek(T, T.cindex, q, key).value);
    }
  }

  /** A default reduction is by a rule complete in the state, so never by the start rule. */
  lemma DefaultFits(g: Packed, A: Automaton, q: nat, row: seq<Action>, defred: nat)
    requires RowFits(g, A, q, row) && (defred > 0 ==> OnlyRule(row, defred))
    ensures defred > 0 ==> ReduceSound(g, A, q, defred - 2)
  {
    if defred > 0 {
      var a :| a in row && a.suppressed <= 1 && a.symbol != 1;
      var p :| 0 <= p < |row| && row[p] == a;
      assert ActionFits(g, A, q, row[p]);
    }
  }

  /** The tables written for a resolved parser never lead outside its automaton. */
  lemma TablesAreSound(g: Packed, A: Automaton, P: Precedence, la: seq<nat>, LA: seq<set<nat>>, finalState: nat,
                       raws: seq<seq<Action>>, parser: seq<seq<Action>>, defred: seq<nat>, T: Tables)
    requires Values(g) && Canonical(g, A) && Covers(P, g) && ParserOK(g, A, P, la, LA, finalState, raws, parser, defred)
    requires TablesOK(g, A, parser, defred, finalState, T) && Goto(A, 0, g.ntokens + 1, finalState)
    ensures TablesSound(g, A, T)
  {
    forall q: nat | q < |A.states|
      ensures StateSound(g, A, T, q)
    {
      assert RowOK(g, A, P, la, LA, finalState, q, raws[q], parser[q], defred[q]);
      RowIsFit(g, A, P, la, LA, q == finalState, q, raws[q], parser[q]);
      StateIsSound(g, A, T, q, parser[q], defred[q]);
    }
  }

  /** What the stages leave behind besides the tables. */
  datatype Made = Made(automaton: Automaton, gotos: Gotos, nullable: seq<bool>, lookaheads: seq<nat>,
                       laRuleno: seq<nat>, parser: seq<seq<Action>>, defred: seq<nat>)

  /** T and m are what the generator makes of g: each stage's result, exactly. */
  ghost predicate Generated(g: Packed, P: Precedence, T: Tables, m: Made, LA: seq<set<nat>>, raws: seq<seq<Action>>) {
    && Values(g) && Covers(P, g)
    && Canonical(g, m.automaton) && Setting(g, m.automaton, m.gotos, m.nullable)
    && (forall s: nat :: s < g.nsyms ==> (m.nullable[s] <==> DerivesEmpty(g.ToCfg(), s)))
    && L.LookaheadsOK(g, m.automaton, m.gotos, m.nullable, m.lookaheads, m.laRuleno, LA)
    && SlotsFollow(g, m.automaton, m.lookaheads, LA)
    && ParserOK(g, m.automaton, P, m.lookaheads, LA, T.final, raws, m.parser, m.defred)
    && TablesOK(g, m.automaton, m.parser, m.defred, T.final, T)
    && TablesSound(g, m.automaton, T) && Shaped(T)
    && |T.ctable| <= 4 * Total(raws, T.final, |raws|)
  }

  /** Precedence removed no action. */
  ghost predicate NothingRemoved(m: Made) {
    forall q :: 0 <= q < |m.parser| ==> NoneRemoved(m.parser[q])
  }

  ghost predicate ConflictFree(m: Made) {
    forall q :: 0 <= q < |m.parser| ==> NoneSuppressed(m.parser[q])
  }

  /** lr0, lalr, make_parser and output on a packed grammar. */
  method Generate(g: Packed, P: Precedence) returns (T: Tables, m: Made, ghost LA: seq<set<nat>>,
                                                     ghost raws: seq<seq<Action>>)
    requires Values(g) && Covers(P, g)
    ensures Generated(g, P, T, m, LA, raws)
    ensures NothingRemoved(m) ==> Obeys(g, m.automaton, m.gotos, m.nullable, T)
    ensures ConflictFree(m) ==> Shaped(T) && NoForks(T)
  {
    hide Packed.WellFormed, Canonical, GotosOK, RowsOK, RowsReady, TablesSound, TablesOK, Parses, Obeys, NoForks;
    var derives := SetDerives(g);
    var nullables := SetNullable(g);
    var automaton := GenerateStates(g, derives);
    var gotos, lookaheads, laRuleno, LAs := L.Lalr(g, automaton, nullables, derives);
    LA := Rows(LAs);
    L.TokensNotNullable(g);
    AllSlotsFollow(g, automaton, gotos, nullables[..], lookaheads[..], laRuleno[..], LA);
    var rows, defaults, finalState, srTotal, rrTotal, unresolved := MakeParser(g, automaton, P, lookaheads, laRuleno,
        LAs);
    raws := unresolved;
    m := Made(automaton, gotos, nullables[..], lookaheads[..], laRuleno[..], rows, defaults);
    ParserIsReady(g, automaton, P, m.lookaheads, LA, finalState, raws, rows, defaults);
    T := WriteTables(g, automaton, gotos, |automaton.states|, rows, defaults, finalState, srTotal + rrTotal, raws);
    TablesAreSound(g, automaton, P, m.lookaheads, LA, finalState, raws, rows, defaults, T);
    Replay.TablesShaped(g, automaton, T);
    GeneratedObeys(g, P, T, m, LA, raws);
  }

  /** Where precedence removed nothing, the tables do what the automaton says; without conflicts no
      state forks. */
  lemma GeneratedObeys(g: Packed, P: Precedence, T: Tables, m: Made, LA: seq<set<nat>>, raws: seq<seq<Action>>)
    requires Generated(g, P, T, m, LA, raws)
    ensures NothingRemoved(m) ==> Obeys(g, m.automaton, m.gotos, m.nullable, T)
    ensures ConflictFree(m) ==> NothingRemoved(m) && Shaped(T) && NoForks(T)
  {
    hide Packed.WellFormed, Canonical, GotosOK, RowsOK, RowsReady, TablesSound, TablesOK, Parses, Obeys, NoForks;
    if NothingRemoved(m) {
      ParserIsReady(g, m.automaton, P, m.lookaheads, LA, T.final, raws, m.parser, m.defred);
      FullTablesObey(g, m.automaton, m.gotos, m.nullable, P, m.lookaheads, m.laRuleno, LA, raws, m.parser, m.defred, T);
    }
    if ConflictFree(m) {
      NoConflictsNoForks(g, m.automaton, m.parser, m.defred, T);
    }
  }

  /** No symbol derives itself, alone or behind symbols that may be empty. */
  ghost predicate Straight(g: Packed)
    requires g.WellFormed()
  {
    !LeftRecursion.Cyclic(g) && !LeftRecursion.HiddenLeft(g)
  }

  ghost predicate HasEnd(input: nat -> Lexeme) {
    exists k: nat :: input(k).code <= 0
  }

  /** The run of round n ended as it should: a grammar without conflicts decides at all, and one from
      which precedence removed nothing decides by every run that ends without YYVALID. For a straight
      grammar these runs do end, on every input with an end token. */
  ghost predicate RunsRight(g: Packed, T: Tables, m: Made, input: nat -> Lexeme, yes: nat -> bool, n: nat,
                            sentence: bool)
    requires Shaped(T) && g.WellFormed()
  {
    && (ConflictFree(m) ==> (Search.Accepts(T, input, yes) <==> sentence))
    && (NothingRemoved(m) && Search.NeverValid(yes) && !Run(T, input, yes, n).status.Running? ==>
          (Run(T, input, yes, n).status.Accepted? <==> sentence))
    && (Straight(g) && HasEnd(input) && (ConflictFree(m) || Search.NeverValid(yes)) ==> Endings.Ends(T, input, yes))
  }

  ghost predicate HasSentence(g: Packed, input: nat -> Lexeme)
    requires g.WellFormed()
  {
    exists k: nat :: IsSentence(g, input, k)
  }

  lemma RunIsRight(g: Packed, T: Tables, m: Made, input: nat -> Lexeme, yes: nat -> bool, n: nat)
    requires g.WellFormed() && Shaped(T) && TablesSound(g, m.automaton, T)
    requires NothingRemoved(m) ==> Obeys(g, m.automaton, m.gotos, m.nullable, T)
    requires ConflictFree(m) ==> NothingRemoved(m) && NoForks(T)
    ensures RunsRight(g, T, m, input, yes, n, HasSentence(g, input))
  {
    hide Packed.WellFormed, Shaped, TablesSound, Obeys, NoForks, IsSentence, Run, NothingRemoved, ConflictFree,
        Straight, Endings.Ends;
    if NothingRemoved(m) && Search.NeverValid(yes) && !Run(T, input, yes, n).status.Running? {
      EndedRunDecides(g, m.automaton, m.gotos, m.nullable, T, input, yes, n);
    }
    if ConflictFree(m) {
      Decides(g, m.automaton, m.gotos, m.nullable, T, input, yes);
    }
    if Straight(g) && HasEnd(input) && (ConflictFree(m) || Search.NeverValid(yes)) {
      StraightEnds(g, T, m, input, yes);
    }
  }

  /** The parser of a straight grammar comes to an end, whatever its conflicts. */
  lemma StraightEnds(g: Packed, T: Tables, m: Made, input: nat -> Lexeme, yes: nat -> bool)
    requires g.WellFormed() && Shaped(T) && TablesSound(g, m.automaton, T) && Straight(g) && HasEnd(input)
    requires (ConflictFree(m) && NoForks(T)) || Search.NeverValid(yes)
    ensures Endings.Ends(T, input, yes)
  {
    hide Packed.WellFormed, Shaped, TablesSound, NoForks, LeftRecursion.Cyclic, LeftRecursion.HiddenLeft, Endings.Ends;
    LeftRecursion.NothingCircles(g, m.automaton, T);
    var k: nat :| input(k).code <= 0;
    if Search.NeverValid(yes) {
      Halting.SearchEnds(g, m.automaton, T, input, yes, k);
    } else {
      Endings.EndsWithoutCircles(g, m.automaton, T, input, yes, k);
    }
  }

  /** Generating a parser and running it for n rounds: the answer is that of the generated tables'
      run, and what is accepted has a parse tree in the grammar they were generated from. */
  method GenerateAndParse(g: Packed, P: Precedence, input: nat -> Lexeme, yes: nat -> bool, n: nat)
    returns (status: Status, tree: Tree, T: Tables, m: Made, ghost LA: seq<set<nat>>, ghost raws: seq<seq<Action>>,
    ghost k: nat)
    requires Values(g) && Covers(P, g)
    ensures Generated(g, P, T, m, LA, raws)
    ensures Shaped(T) && status == Run(T, input, yes, n).status && tree == Run(T, input, yes, n).ret
    ensures status != Aborted && status != Crashed
    ensures status == Accepted ==>
        Parses(g.ToCfg(), tree, g.ntokens + 1) && Yield(tree) == Consumed(input, k) && input(k).code <= 0
    ensures g.WellFormed() && RunsRight(g, T, m, input, yes, n, HasSentence(g, input))
  {
    hide Packed.WellFormed, TablesSound, Obeys, NoForks, RunsRight, Run, Canonical, TablesOK, ParserOK, L.LookaheadsOK,
        Setting;
    T, m, LA, raws := Generate(g, P);
    GeneratedFacts(g, P, T, m, LA, raws);
    var machine := new Skeleton.Parser(T, input, g, m.automaton);
    machine.Parse(yes, n);
    status, tree, k := machine.status, machine.yyretlval, Skeleton.Taken(machine.Now());
    RunIsRight(g, T, m, input, yes, n);
  }

  lemma GeneratedFacts(g: Packed, P: Precedence, T: Tables, m: Made, LA: seq<set<nat>>, raws: seq<seq<Action>>)
    requires Generated(g, P, T, m, LA, raws)
    ensures g.WellFormed() && Shaped(T) && TablesSound(g, m.automaton, T)
  {}

  /** Some place of the input is an end token, and what is before it is derived from goal as written. */
  ghost predicate HasWritten(P: seq<Production>, codes: map<nat, int>, goal: nat, input: nat -> Lexeme) {
    exists k: nat :: WrittenTo(P, codes, goal, input, k)
  }

  ghost predicate WrittenTo(P: seq<Production>, codes: map<nat, int>, goal: nat, input: nat -> Lexeme, k: nat) {
    input(k).code <= 0 && Derives(Cfg(P, codes), goal, Consumed(input, k))
  }

  lemma SentencesAsWritten(g: Packed, P: seq<Production>, codes: map<nat, int>, goal: nat, input: nat -> Lexeme)
    requires g.WellFormed()
    requires forall w: seq<Lexeme> :: Derives(Cfg(P, codes), goal, w) <==> Derives(g.ToCfg(), g.ntokens + 1, w)
    ensures HasWritten(P, codes, goal, input) <==> HasSentence(g, input)
  {
    hide Derives, Packed.WellFormed, Packed.ToCfg;
    assert forall k: nat :: WrittenTo(P, codes, goal, input, k) <==> IsSentence(g, input, k);
  }

  /** From the rules as read to a run of the generated parser: the answer is that of the tables
      generated from the rules packed; what it accepts is derived by the grammar as it was written,
      each token standing for its given number, and so on for what it refuses. */
  method ReadGenerateParse(rules: Reader.Rules, isTerm: seq<bool>, given: seq<int>, prec: seq<int>, assoc: seq<Assoc>,
                           goal: nat, input: nat -> Lexeme, yes: nat -> bool, n: nat)
    returns (status: Status, g: Packed, P: Precedence, T: Tables, m: Made, ghost S: PackGrammar.Symbols,
    ghost LA: seq<set<nat>>, ghost raws: seq<seq<Action>>, ghost codes: map<nat, int>, ghost k: nat)
    requires rules.Valid() && |isTerm| == |given| == |prec| == |assoc| == rules.nsymbols + 1 && |isTerm| > 1 &&
        isTerm[1]
    requires 1 <= goal < |isTerm| && !isTerm[goal] && FrontEnd.Classified(isTerm, rules.Now().Productions()) &&
        rules.Now().Written(goal)
    requires forall b :: 0 <= b < |given| ==> given[b] >= 0 || given[b] == UNDEFINED
    requires PackSymbols.GivenApart(isTerm, given)
    modifies rules
    ensures FrontEnd.Packs(isTerm, given, goal, old(rules.Now().Productions()), S, g)
    ensures FrontEnd.Ranks(isTerm, S, prec, assoc, old(rules.closed + [rules.tail]), old(rules.rprec),
        old(rules.rassoc), P)
    ensures Generated(g, P, T, m, LA, raws)
    ensures Shaped(T) && status == Run(T, input, yes, n).status
    ensures status != Aborted && status != Crashed
    ensures FrontEnd.CodesGiven(isTerm, given, codes)
    ensures status == Accepted ==> WrittenTo(old(rules.steps[0]), codes, goal, input, k)
    ensures RunsRight(g, T, m, input, yes, n, HasWritten(old(rules.steps[0]), codes, goal, input))
  {
    hide Packed.WellFormed, Shaped, Generated, Run, RunsRight, Derives, FrontEnd.Ranks;
    ghost var written := rules.steps[0];
    g, P, S := FrontEnd.PackUp(rules, isTerm, given, prec, assoc, goal);
    codes := FrontEnd.CodesOf(S, g.value);
    FrontEnd.CodesAreGiven(isTerm, given, goal, old(rules.Now().Productions()), S, g);
    var tree;
    status, tree, T, m, LA, raws, k := GenerateAndParse(g, P, input, yes, n);
    assert S.index[goal] == g.ntokens + 1;
    SentencesAsWritten(g, written, codes, goal, input);
    if status == Accepted {
      DerivesByTree(g, tree, Consumed(input, k));
    }
  }

  lemma DerivesByTree(g: Packed, tree: Tree, w: seq<Lexeme>)
    requires g.WellFormed() && Parses(g.ToCfg(), tree, g.ntokens + 1) && Yield(tree) == w
    ensures Derives(g.ToCfg(), g.ntokens + 1, w)
  {}
}

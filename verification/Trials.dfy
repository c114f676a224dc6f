/** Trial parsing without the lexeme queue: the generated parser over an input it can look up at
    any place. What is saved, restored and replayed here are spots: a stack and a place. */
module Trials {
  import opened Grammar
  import opened LR0
  import opened ConflictTable
  import opened Output
  import opened Machine
  import opened MachineStacks

  datatype Spot = Spot(stack: Stack, pos: nat)

  /** A conflict met at spot, and the alternative taken there. */
  datatype Turn = Turn(spot: Spot, ctry: int)

  datatype Action = DoShift(n: int) | DoReduce(y: int) | Fork(e: int) | Stuck

  datatype Move = Next(spot: Spot) | Done(spot: Spot, tree: Tree) | Broken

  datatype Plain = Plain(status: Status, here: Spot, saves: seq<Turn>, path: seq<Turn>, ret: Tree)

  function Top(st: Stack): nat {
    if |st.ss| == 0 then 0 else st.ss[|st.ss| - 1]
  }

  /** What the tables say to do at a spot. */
  function Decide(T: Tables, input: nat -> Lexeme, k: Spot): Action
    requires Shaped(T)
  {
    var q := Top(k.stack);
    var key := Norm(input(k.pos).code);
    if q >= |T.defred| then Stuck
    else if T.defred[q] != 0 then DoReduce(T.defred[q])
    else if Peek(T, T.cindex, q, key).Some? then Fork(Peek(T, T.cindex, q, key).value)
    else if Peek(T, T.sindex, q, key).Some? then DoShift(Peek(T, T.sindex, q, key).value)
    else if Peek(T, T.rindex, q, key).Some? then DoReduce(Peek(T, T.rindex, q, key).value)
    else Stuck
  }

  function Perform(T: Tables, input: nat -> Lexeme, k: Spot, a: Action): Move
    requires Shaped(T)
  {
    match a
    case DoShift(n) => if n < 0 then Broken else Next(Spot(Pushed(k.stack, n, Leaf(input(k.pos))), k.pos + 1))
    case DoReduce(y) =>
      (match Reduction(T, k.stack, y)
       case Bad => Broken
       case Reduced(st, goal, tree) =>
         if goal && Norm(input(k.pos).code) == 0 then Done(Spot(st, k.pos), tree) else Next(Spot(st, k.pos)))
    case _ => Broken
  }

  /** Alternative ctry of the list at e. */
  function Alternative(T: Tables, e: int, ctry: int): Action {
    if !(0 <= ctry < |T.ctable|) then Stuck else if e == ctry then DoShift(T.ctable[ctry]) else DoReduce(T.ctable[ctry])
  }

  function PlainValid(p: Plain): Plain
    requires p.saves != []
  {
    if p.path != [] then p.(status := Aborted) else p.(here := p.saves[0].spot, saves := [], path := p.saves)
  }

  function PlainDo(T: Tables, input: nat -> Lexeme, p: Plain, a: Action, valid: bool): Plain
    requires Shaped(T)
  {
    if a.DoReduce? && valid && p.saves != [] then PlainValid(p)
    else match Perform(T, input, p.here, a)
      case Broken => p.(status := Crashed)
      case Next(k) => p.(here := k)
      case Done(k, tree) =>
        if p.saves != [] then PlainValid(p.(here := k)) else p.(here := k, ret := tree, status := Accepted)
  }

  /** The alternative after the one the innermost save is trying. */
  function NextTry(p: Plain): int
    requires p.saves != []
  {
    p.saves[|p.saves| - 1].ctry + 1
  }

  /** Back at the innermost save, with its next alternative. */
  function Retried(p: Plain): Plain
    requires p.saves != []
  {
    var n := |p.saves| - 1;
    p.(here := p.saves[n].spot, saves := p.saves[..n] + [p.saves[n].(ctry := NextTry(p))])
  }

  /** Back at the innermost save, given up. */
  function GivenUp(p: Plain): Plain
    requires p.saves != []
  {
    var n := |p.saves| - 1;
    p.(here := p.saves[n].spot, saves := p.saves[..n])
  }

  function PlainBacktrack(T: Tables, input: nat -> Lexeme, p: Plain, valid: bool): Plain
    requires Shaped(T)
    decreases |p.saves|
  {
    if p.saves == [] then p.(status := Failed)
    else if !(0 <= NextTry(p) < |T.ctable|) then p.(status := Crashed)
    else if T.ctable[NextTry(p)] >= 0 then PlainDo(T, input, Retried(p), DoReduce(T.ctable[NextTry(p)]), valid)
    else PlainBacktrack(T, input, GivenUp(p), valid)
  }

  function PlainFork(T: Tables, input: nat -> Lexeme, p: Plain, e: int, valid: bool): Plain
    requires Shaped(T)
  {
    if p.path != [] then
      var d := p.(path := p.path[1..]);
      if Top(p.path[0].spot.stack) != Top(p.here.stack) then d.(status := Aborted)
      else PlainDo(T, input, d, Alternative(T, e, p.path[0].ctry), valid)
    else if !(0 <= e < |T.ctable|) then p.(status := Crashed)
    else
      var ctry := if T.ctable[e] == -1 then e + 1 else e;
      PlainDo(T, input, p.(saves := p.saves + [Turn(p.here, ctry)]), Alternative(T, e, ctry), valid)
  }

  function PlainStep(T: Tables, input: nat -> Lexeme, p: Plain, valid: bool): Plain
    requires Shaped(T)
  {
    if p.status != Running then p
    else match Decide(T, input, p.here)
      case Fork(e) => PlainFork(T, input, p, e, valid)
      case Stuck => PlainBacktrack(T, input, p, valid)
      case a => PlainDo(T, input, p, a, valid)
  }

  /** A step without choice from k. */
  ghost function Onward(T: Tables, input: nat -> Lexeme, k: Spot): Move
    requires Shaped(T)
  {
    var a := Decide(T, input, k);
    if a.Fork? || a.Stuck? then Broken else Perform(T, input, k, a)
  }

  ghost predicate LeadsIn(T: Tables, input: nat -> Lexeme, k: Spot, k': Spot, n: nat)
    requires Shaped(T)
    decreases n
  {
    if n == 0 then k == k' else Onward(T, input, k).Next? && LeadsIn(T, input, Onward(T, input, k).spot, k', n - 1)
  }

  /** k' is reached from k without a choice. */
  ghost predicate Leads(T: Tables, input: nat -> Lexeme, k: Spot, k': Spot)
    requires Shaped(T)
  {
    exists n: nat :: LeadsIn(T, input, k, k', n)
  }

  lemma {:induction false} LeadsOn(T: Tables, input: nat -> Lexeme, k: Spot, k': Spot, n: nat)
    requires Shaped(T) && LeadsIn(T, input, k, k', n) && Onward(T, input, k').Next?
    ensures LeadsIn(T, input, k, Onward(T, input, k').spot, n + 1)
    decreases n
  {
    if n > 0 {
      LeadsOn(T, input, Onward(T, input, k).spot, k', n - 1);
    } else {
      assert LeadsIn(T, input, Onward(T, input, k).spot, Onward(T, input, k').spot, 0);
    }
  }

  lemma {:induction false} LeadsAhead(T: Tables, input: nat -> Lexeme, k: Spot, k': Spot, n: nat)
    requires Shaped(T) && LeadsIn(T, input, k, k', n)
    ensures k.pos <= k'.pos
    decreases n
  {
    if n > 0 {
      LeadsAhead(T, input, Onward(T, input, k).spot, k', n - 1);
    }
  }

  /** After choosing as t did, the parse comes to k without another choice. */
  ghost predicate ComesTo(T: Tables, input: nat -> Lexeme, t: Turn, k: Spot)
    requires Shaped(T)
  {
    && Decide(T, input, t.spot).Fork?
    && var m := Perform(T, input, t.spot, Alternative(T, Decide(T, input, t.spot).e, t.ctry));
       m.Next? && Leads(T, input, m.spot, k)
  }

  /** Each turn leads to the next one. */
  ghost predicate Linked(T: Tables, input: nat -> Lexeme, turns: seq<Turn>)
    requires Shaped(T)
  {
    forall i, j :: 0 <= i < j < |turns| && j == i + 1 ==> ComesTo(T, input, turns[i], turns[j].spot)
  }

  /** Alternative number j of a sound list is being tried. */
  ghost predicate Trying(g: Packed, A: Automaton, T: Tables, q: nat, key: int, e: int, ctry: int, values: seq<int>,
                         reduceFirst: bool, j: nat) {
    ListIs(g, A, T, q, key, e, values, reduceFirst) && j < |values| && ctry == e + (if reduceFirst then 1 else 0) + j
  }

  ghost predicate SpotOK(g: Packed, A: Automaton, input: nat -> Lexeme, k: Spot)
    requires g.WellFormed()
  {
    StackOK(g, A, input, k.stack, k.pos)
  }

  ghost predicate TurnOK(g: Packed, A: Automaton, T: Tables, input: nat -> Lexeme, t: Turn)
    requires g.WellFormed() && Shaped(T)
  {
    && SpotOK(g, A, input, t.spot) && Decide(T, input, t.spot).Fork?
    && exists values: seq<int>, reduceFirst: bool, j: nat ::
         Trying(g, A, T, Top(t.spot.stack), Norm(input(t.spot.pos).code), Decide(T, input, t.spot).e, t.ctry, values,
             reduceFirst, j)
  }

  /** The invariant of a run: sound stacks everywhere; the saves are the choices that led here;
      the path is the choices the parse is coming to. */
  ghost predicate PlainOK(g: Packed, A: Automaton, T: Tables, input: nat -> Lexeme, p: Plain)
    requires g.WellFormed() && Shaped(T)
  {
    && SpotOK(g, A, input, p.here)
    && (p.saves == [] || p.path == [])
    && (forall i :: 0 <= i < |p.saves| ==> TurnOK(g, A, T, input, p.saves[i]))
    && (forall i :: 0 <= i < |p.path| ==> TurnOK(g, A, T, input, p.path[i]))
    && Linked(T, input, p.saves) && Linked(T, input, p.path)
    && (p.saves != [] ==> ComesTo(T, input, p.saves[|p.saves| - 1], p.here))
    && (p.path != [] ==> Leads(T, input, p.here, p.path[0].spot))
  }

  /** An action the automaton allows at k. */
  ghost predicate ActionSound(g: Packed, A: Automaton, input: nat -> Lexeme, k: Spot, a: Action) {
    match a
    case DoShift(n) => ShiftSound(g, A, Top(k.stack), Norm(input(k.pos).code), n)
    case DoReduce(y) => ReduceSound(g, A, Top(k.stack), y)
    case _ => false
  }

  /** A whole parse: one tree for the goal, over exactly the input before an end token. */
  ghost predicate ParsedAll(g: Packed, input: nat -> Lexeme, k: Spot, tree: Tree)
    requires g.WellFormed()
  {
    && k.stack.vals == [tree] && Parses(g.ToCfg(), tree, g.ntokens + 1)
    && Yield(tree) == Consumed(input, k.pos) && input(k.pos).code <= 0
  }

  lemma PerformOK(g: Packed, A: Automaton, T: Tables, input: nat -> Lexeme, k: Spot, a: Action)
    requires TablesSound(g, A, T) && SpotOK(g, A, input, k) && ActionSound(g, A, input, k, a)
    ensures !Perform(T, input, k, a).Broken?
    ensures SpotOK(g, A, input, Perform(T, input, k, a).spot)
    ensures Perform(T, input, k, a).Done? ==>
        ParsedAll(g, input, Perform(T, input, k, a).spot, Perform(T, input, k, a).tree)
  {
    hide Packed.WellFormed, Canonical, Parses, YieldAll, StateSound, Consumed, ReduceSound;
    if a.DoShift? {
      ShiftStack(g, A, input, k.stack, k.pos, a.n);
    } else {
      ReduceStack(g, A, T, input, k.stack, k.pos, a.y);
      if Perform(T, input, k, a).Done? {
        YieldAllOne(Perform(T, input, k, a).tree);
      }
    }
  }

  /** Whatever the tables decide at a sound spot is sound. */
  lemma DecideSound(g: Packed, A: Automaton, T: Tables, input: nat -> Lexeme, k: Spot)
    requires TablesSound(g, A, T) && SpotOK(g, A, input, k)
    ensures var a := Decide(T, input, k);
            match a
            case Fork(e) => T.defred[Top(k.stack)] == 0 && ListSound(g, A, T, Top(k.stack), Norm(input(k.pos).code), e)
            case Stuck => true
            case _ => ActionSound(g, A, input, k, a)
  {
    assert StateSound(g, A, T, Top(k.stack));
  }

  /** An encoded list is read off the table. */
  lemma ListEntry(g: Packed, A: Automaton, T: Tables, q: nat, key: int, e: int, values: seq<int>, reduceFirst: bool,
                  j: nat)
    requires ListIs(g, A, T, q, key, e, values, reduceFirst) && j <= |values|
    ensures var d := if reduceFirst then 1 else 0;
            e + d + j < |T.ctable| && T.ctable[e + d + j] == (if j < |values| then values[j] else -1)
    ensures T.ctable[e] == -1 <==> reduceFirst
  {
    var L := Encoded(values, reduceFirst);
    var d := if reduceFirst then 1 else 0;
    assert T.ctable[e..e + |L|][d + j] == L[d + j];
    assert T.ctable[e..e + |L|][0] == L[0];
  }

  /** The alternative being tried is a sound action. */
  lemma TryingSound(g: Packed, A: Automaton, T: Tables, input: nat -> Lexeme, k: Spot, e: int, ctry: int,
                    values: seq<int>, reduceFirst: bool, j: nat)
    requires Trying(g, A, T, Top(k.stack), Norm(input(k.pos).code), e, ctry, values, reduceFirst, j)
    ensures ActionSound(g, A, input, k, Alternative(T, e, ctry))
    ensures 0 <= e < |T.ctable| && 0 <= ctry < |T.ctable| && T.ctable[ctry] == values[j]
    ensures ctry + 1 < |T.ctable| && T.ctable[ctry + 1] == (if j + 1 < |values| then values[j + 1] else -1)
    ensures T.ctable[e] == -1 <==> reduceFirst
  {
    ListEntry(g, A, T, Top(k.stack), Norm(input(k.pos).code), e, values, reduceFirst, j);
    ListEntry(g, A, T, Top(k.stack), Norm(input(k.pos).code), e, values, reduceFirst, j + 1);
    assert AlternativeSound(g, A, Top(k.stack), Norm(input(k.pos).code), values, reduceFirst, j);
  }

  /** What holds whenever the loop is left or goes round. */
  ghost predicate RunOK(g: Packed, A: Automaton, T: Tables, input: nat -> Lexeme, p: Plain)
    requires g.WellFormed() && Shaped(T)
  {
    && !p.status.Crashed? && !p.status.Aborted?
    && (p.status.Running? ==> PlainOK(g, A, T, input, p))
    && (p.status.Accepted? ==> p.saves == [] && p.path == [] && ParsedAll(g, input, p.here, p.ret))
  }

  /** The saves and the path apart from how they connect to the present spot. */
  ghost predicate TurnsOK(g: Packed, A: Automaton, T: Tables, input: nat -> Lexeme, p: Plain)
    requires g.WellFormed() && Shaped(T)
  {
    && (p.saves == [] || p.path == [])
    && (forall i :: 0 <= i < |p.saves| ==> TurnOK(g, A, T, input, p.saves[i]))
    && (forall i :: 0 <= i < |p.path| ==> TurnOK(g, A, T, input, p.path[i]))
    && Linked(T, input, p.saves) && Linked(T, input, p.path)
  }

  /** Restarting from the outermost save: the saves are what the parse will come to. */
  lemma ValidOK(g: Packed, A: Automaton, T: Tables, input: nat -> Lexeme, p: Plain)
    requires TablesSound(g, A, T) && TurnsOK(g, A, T, input, p) && p.saves != [] && p.status.Running?
    ensures RunOK(g, A, T, input, PlainValid(p))
  {
    assert TurnOK(g, A, T, input, p.saves[0]);
    assert LeadsIn(T, input, p.saves[0].spot, p.saves[0].spot, 0);
  }

  /** Performing a sound action that stays with the saves and the path. */
  lemma DoOK(g: Packed, A: Automaton, T: Tables, input: nat -> Lexeme, p: Plain, a: Action, valid: bool)
    requires TablesSound(g, A, T) && TurnsOK(g, A, T, input, p) && p.status.Running?
    requires SpotOK(g, A, input, p.here) && ActionSound(g, A, input, p.here, a)
    requires var m := Perform(T, input, p.here, a);
             && (p.saves != [] && m.Next? ==> ComesTo(T, input, p.saves[|p.saves| - 1], m.spot))
             && (p.path != [] ==> m.Next? && Leads(T, input, m.spot, p.path[0].spot))
    ensures RunOK(g, A, T, input, PlainDo(T, input, p, a, valid))
  {
    hide SpotOK, ActionSound, Perform, ComesTo, Leads, TurnOK, StateSound, Packed.WellFormed, Canonical, Decide;
    PerformOK(g, A, T, input, p.here, a);
    var m := Perform(T, input, p.here, a);
    if a.DoReduce? && valid && p.saves != [] {
      ValidOK(g, A, T, input, p);
    } else if m.Done? && p.saves != [] {
      ValidOK(g, A, T, input, p.(here := m.spot));
    }
  }

  /** A step without choice keeps the connection to the saves and to the path. */
  lemma QuietOK(g: Packed, A: Automaton, T: Tables, input: nat -> Lexeme, p: Plain, valid: bool)
    requires TablesSound(g, A, T) && PlainOK(g, A, T, input, p) && p.status.Running?
    requires Decide(T, input, p.here).DoShift? || Decide(T, input, p.here).DoReduce?
    ensures RunOK(g, A, T, input, PlainDo(T, input, p, Decide(T, input, p.here), valid))
  {
    var a := Decide(T, input, p.here);
    var m := Perform(T, input, p.here, a);
    DecideSound(g, A, T, input, p.here);
    if p.saves != [] && m.Next? {
      ComesFurther(T, input, p.saves[|p.saves| - 1], p.here);
    }
    if p.path != [] {
      PathAhead(g, A, T, input, p);
    }
    DoOK(g, A, T, input, p, a, valid);
  }

  lemma ComesFurther(T: Tables, input: nat -> Lexeme, t: Turn, k: Spot)
    requires Shaped(T) && ComesTo(T, input, t, k) && Onward(T, input, k).Next?
    ensures ComesTo(T, input, t, Onward(T, input, k).spot)
  {
    var m := Perform(T, input, t.spot, Alternative(T, Decide(T, input, t.spot).e, t.ctry));
    var n: nat :| LeadsIn(T, input, m.spot, k, n);
    LeadsOn(T, input, m.spot, k, n);
  }

  /** While a path is followed, a spot without a choice cannot be its end. */
  lemma PathAhead(g: Packed, A: Automaton, T: Tables, input: nat -> Lexeme, p: Plain)
    requires g.WellFormed() && Shaped(T) && PlainOK(g, A, T, input, p) && p.path != [] &&
        !Decide(T, input, p.here).Fork?
    ensures Onward(T, input, p.here).Next? && Leads(T, input, Onward(T, input, p.here).spot, p.path[0].spot)
  {
    assert TurnOK(g, A, T, input, p.path[0]);
    var n: nat :| LeadsIn(T, input, p.here, p.path[0].spot, n);
    assert n > 0;
    assert LeadsIn(T, input, Onward(T, input, p.here).spot, p.path[0].spot, n - 1);
  }

  /** While a path is followed, a choice is the next one of the path. */
  lemma PathArrived(g: Packed, A: Automaton, T: Tables, input: nat -> Lexeme, p: Plain)
    requires g.WellFormed() && Shaped(T) && PlainOK(g, A, T, input, p) && p.path != [] && Decide(T, input, p.here).Fork?
    ensures p.here == p.path[0].spot
  {
    var n: nat :| LeadsIn(T, input, p.here, p.path[0].spot, n);
    assert n == 0;
  }

  /** Replay: the choice of the path is made again. */
  lemma ReplayOK(g: Packed, A: Automaton, T: Tables, input: nat -> Lexeme, p: Plain, valid: bool)
    requires TablesSound(g, A, T) && PlainOK(g, A, T, input, p) && p.status.Running? && p.path != [] &&
        Decide(T, input, p.here).Fork?
    ensures RunOK(g, A, T, input, PlainStep(T, input, p, valid))
  {
    hide SpotOK, ActionSound, Perform, PlainDo, RunOK, Leads, StateSound, Packed.WellFormed, Canonical, Decide, ListIs;
    PathArrived(g, A, T, input, p);
    var t := p.path[0];
    var e := Decide(T, input, p.here).e;
    assert TurnOK(g, A, T, input, t);
    var values, reduceFirst, j: nat :|
      Trying(g, A, T, Top(t.spot.stack), Norm(input(t.spot.pos).code), e, t.ctry, values, reduceFirst, j);
    TryingSound(g, A, T, input, p.here, e, t.ctry, values, reduceFirst, j);
    var d := p.(path := p.path[1..]);
    assert forall i, k :: 0 <= i < k < |d.path| && k == i + 1 ==>
        d.path[i] == p.path[i + 1] && d.path[k] == p.path[k + 1];
    if d.path != [] {
      assert ComesTo(T, input, p.path[0], p.path[1].spot);
    }
    DoOK(g, A, T, input, d, Alternative(T, e, t.ctry), valid);
  }

  lemma LinkedSnoc(T: Tables, input: nat -> Lexeme, turns: seq<Turn>, t: Turn)
    requires Shaped(T) && Linked(T, input, turns) && (turns != [] ==> ComesTo(T, input, turns[|turns| - 1], t.spot))
    ensures Linked(T, input, turns + [t])
  {
    var turns' := turns + [t];
    forall i, j | 0 <= i < j < |turns'| && j == i + 1
      ensures ComesTo(T, input, turns'[i], turns'[j].spot)
    {
      if j < |turns| {
        assert ComesTo(T, input, turns[i], turns[j].spot);
      }
    }
  }

  /** The last turn may change its choice, or go. */
  lemma LinkedPrefix(T: Tables, input: nat -> Lexeme, turns: seq<Turn>, n: nat)
    requires Shaped(T) && Linked(T, input, turns) && n < |turns|
    ensures Linked(T, input, turns[..n])
    ensures n > 0 ==> ComesTo(T, input, turns[..n][n - 1], turns[n].spot)
  {
    if n > 0 {
      var i := n - 1;
      assert ComesTo(T, input, turns[i], turns[n].spot);
    }
  }

  lemma ChosenLeads(T: Tables, input: nat -> Lexeme, t: Turn)
    requires Shaped(T) && Decide(T, input, t.spot).Fork?
    ensures var m := Perform(T, input, t.spot, Alternative(T, Decide(T, input, t.spot).e, t.ctry));
            m.Next? ==> ComesTo(T, input, t, m.spot)
  {
    var m := Perform(T, input, t.spot, Alternative(T, Decide(T, input, t.spot).e, t.ctry));
    assert m.Next? ==> LeadsIn(T, input, m.spot, m.spot, 0);
  }

  /** A new trial: the spot is saved and its first alternative taken. */
  lemma ForkOK(g: Packed, A: Automaton, T: Tables, input: nat -> Lexeme, p: Plain, valid: bool)
    requires TablesSound(g, A, T) && PlainOK(g, A, T, input, p) && p.status.Running? && p.path == [] &&
        Decide(T, input, p.here).Fork?
    ensures RunOK(g, A, T, input, PlainStep(T, input, p, valid))
  {
    var e := Decide(T, input, p.here).e;
    var q, key := Top(p.here.stack), Norm(input(p.here.pos).code);
    DecideSound(g, A, T, input, p.here);
    var values, reduceFirst :| ListIs(g, A, T, q, key, e, values, reduceFirst);
    ListEntry(g, A, T, q, key, e, values, reduceFirst, 0);
    var ctry := if T.ctable[e] == -1 then e + 1 else e;
    assert Trying(g, A, T, q, key, e, ctry, values, reduceFirst, 0);
    TryingSound(g, A, T, input, p.here, e, ctry, values, reduceFirst, 0);
    var t := Turn(p.here, ctry);
    assert TurnOK(g, A, T, input, t);
    hide TablesSound, TurnOK, SpotOK, ActionSound, Perform, PlainDo, RunOK, Linked, ComesTo, Decide, Alternative;
    LinkedSnoc(T, input, p.saves, t);
    ChosenLeads(T, input, t);
    DoOK(g, A, T, input, p.(saves := p.saves + [t]), Alternative(T, e, ctry), valid);
  }

  /** After the alternative being tried comes another, a reduction, or the end of the list. */
  lemma NextAlternative(g: Packed, A: Automaton, T: Tables, input: nat -> Lexeme, s: Turn)
    requires g.WellFormed() && Shaped(T) && TurnOK(g, A, T, input, s)
    ensures 0 <= s.ctry + 1 < |T.ctable| && SpotOK(g, A, input, s.spot) && Decide(T, input, s.spot).Fork?
    ensures T.ctable[s.ctry + 1] >= 0 ==>
              && TurnOK(g, A, T, input, s.(ctry := s.ctry + 1))
              && Alternative(T, Decide(T, input, s.spot).e, s.ctry + 1) == DoReduce(T.ctable[s.ctry + 1])
              && ActionSound(g, A, input, s.spot, DoReduce(T.ctable[s.ctry + 1]))
  {
    var e := Decide(T, input, s.spot).e;
    var q, key := Top(s.spot.stack), Norm(input(s.spot.pos).code);
    var values, reduceFirst, j: nat :| Trying(g, A, T, q, key, e, s.ctry, values, reduceFirst, j);
    TryingSound(g, A, T, input, s.spot, e, s.ctry, values, reduceFirst, j);
    var t := s.(ctry := s.ctry + 1);
    if T.ctable[t.ctry] >= 0 {
      assert Trying(g, A, T, q, key, e, t.ctry, values, reduceFirst, j + 1);
      TryingSound(g, A, T, input, s.spot, e, t.ctry, values, reduceFirst, j + 1);
    }
  }

  /** The next alternative of the innermost save is tried from the spot that was saved. */
  lemma RetryOK(g: Packed, A: Automaton, T: Tables, input: nat -> Lexeme, p: Plain, valid: bool)
    requires TablesSound(g, A, T) && TurnsOK(g, A, T, input, p) && p.status.Running? && p.saves != []
    requires 0 <= NextTry(p) < |T.ctable| && T.ctable[NextTry(p)] >= 0
    ensures RunOK(g, A, T, input, PlainDo(T, input, Retried(p), DoReduce(T.ctable[NextTry(p)]), valid))
  {
    hide TurnOK, SpotOK, ActionSound, Perform, PlainDo, RunOK, Linked, ComesTo, Decide, Alternative, StateSound,
        Packed.WellFormed, Canonical;
    var n := |p.saves| - 1;
    var t := p.saves[n].(ctry := NextTry(p));
    NextAlternative(g, A, T, input, p.saves[n]);
    LinkedPrefix(T, input, p.saves, n);
    LinkedSnoc(T, input, p.saves[..n], t);
    ChosenLeads(T, input, t);
    DoOK(g, A, T, input, Retried(p), DoReduce(T.ctable[NextTry(p)]), valid);
  }

  lemma GiveUpOK(g: Packed, A: Automaton, T: Tables, input: nat -> Lexeme, p: Plain)
    requires g.WellFormed() && Shaped(T) && TurnsOK(g, A, T, input, p) && p.saves != []
    ensures TurnsOK(g, A, T, input, GivenUp(p)) && 0 <= NextTry(p) < |T.ctable|
  {
    NextAlternative(g, A, T, input, p.saves[|p.saves| - 1]);
    LinkedPrefix(T, input, p.saves, |p.saves| - 1);
  }

  lemma FailedOK(g: Packed, A: Automaton, T: Tables, input: nat -> Lexeme, p: Plain)
    requires g.WellFormed() && Shaped(T)
    ensures RunOK(g, A, T, input, p.(status := Failed))
  {}

  lemma {:induction false} BacktrackOK(g: Packed, A: Automaton, T: Tables, input: nat -> Lexeme, p: Plain, valid: bool)
    requires TablesSound(g, A, T) && TurnsOK(g, A, T, input, p) && p.status.Running?
    ensures RunOK(g, A, T, input, PlainBacktrack(T, input, p, valid))
    decreases |p.saves|
  {
    assert g.WellFormed() && Shaped(T);
    hide TablesSound, TurnsOK, PlainDo, RunOK;
    if p.saves == [] {
      FailedOK(g, A, T, input, p);
    } else {
      GiveUpOK(g, A, T, input, p);
      if T.ctable[NextTry(p)] >= 0 {
        RetryOK(g, A, T, input, p, valid);
      } else {
        BacktrackOK(g, A, T, input, GivenUp(p), valid);
      }
    }
  }

  /** One step keeps the invariant; it neither runs off a table or stack nor aborts a replay. */
  lemma StepOK(g: Packed, A: Automaton, T: Tables, input: nat -> Lexeme, p: Plain, valid: bool)
    requires TablesSound(g, A, T) && RunOK(g, A, T, input, p)
    ensures RunOK(g, A, T, input, PlainStep(T, input, p, valid))
  {
    if p.status.Running? {
      match Decide(T, input, p.here)
      case Fork(e) =>
        if p.path != [] {
          ReplayOK(g, A, T, input, p, valid);
        } else {
          ForkOK(g, A, T, input, p, valid);
        }
      case Stuck =>
        BacktrackOK(g, A, T, input, p, valid);
      case _ =>
        QuietOK(g, A, T, input, p, valid);
    }
  }

  /** The spots of the path lie ahead of the parse, in order. */
  lemma PathBounds(g: Packed, A: Automaton, T: Tables, input: nat -> Lexeme, p: Plain)
    requires g.WellFormed() && Shaped(T) && PlainOK(g, A, T, input, p) && p.path != []
    ensures p.here.pos <= p.path[0].spot.pos
    ensures |p.path| > 1 ==> p.path[0].spot.pos <= p.path[1].spot.pos
  {
    var n: nat :| LeadsIn(T, input, p.here, p.path[0].spot, n);
    LeadsAhead(T, input, p.here, p.path[0].spot, n);
    if |p.path| > 1 {
      assert ComesTo(T, input, p.path[0], p.path[1].spot);
      var t := p.path[0];
      var m := Perform(T, input, t.spot, Alternative(T, Decide(T, input, t.spot).e, t.ctry));
      var l: nat :| LeadsIn(T, input, m.spot, p.path[1].spot, l);
      LeadsAhead(T, input, m.spot, p.path[1].spot, l);
    }
  }

  /** A list starts with an alternative, after at most one mark. */
  lemma ListStart(g: Packed, A: Automaton, T: Tables, q: nat, key: int, e: int)
    requires ListSound(g, A, T, q, key, e)
    ensures 0 <= e && e + 1 < |T.ctable| && T.ctable[e] >= -1 && (T.ctable[e] == -1 ==> T.ctable[e + 1] >= 0)
  {
    var values, reduceFirst :| ListIs(g, A, T, q, key, e, values, reduceFirst);
    ListEntry(g, A, T, q, key, e, values, reduceFirst, 0);
    ListEntry(g, A, T, q, key, e, values, reduceFirst, |values|);
  }

  /** The alternative that the path makes next is not a list end either. */
  lemma PathIsShift(g: Packed, A: Automaton, T: Tables, input: nat -> Lexeme, p: Plain)
    requires TablesSound(g, A, T) && PlainOK(g, A, T, input, p) && p.path != [] && Decide(T, input, p.here).Fork?
    ensures p.here == p.path[0].spot && 0 <= p.path[0].ctry < |T.ctable| && T.ctable[p.path[0].ctry] >= 0
  {
    PathArrived(g, A, T, input, p);
    var t := p.path[0];
    var e := Decide(T, input, p.here).e;
    assert TurnOK(g, A, T, input, t);
    var values, reduceFirst, j: nat :|
      Trying(g, A, T, Top(t.spot.stack), Norm(input(t.spot.pos).code), e, t.ctry, values, reduceFirst, j);
    TryingSound(g, A, T, input, p.here, e, t.ctry, values, reduceFirst, j);
  }
}

/** skeleton.c, yyvalid: where the replay of a successful trial ends. */
module Replay {
  import opened Grammar
  import opened LR0
  import opened Output
  import opened Machine
  import opened MachineStacks
  import opened Trials
  import opened LexemeQueue
  import opened Skeleton

  lemma TablesShaped(g: Packed, A: Automaton, T: Tables)
    requires TablesSound(g, A, T)
    ensures g.WellFormed() && Shaped(T)
  {}

  /** n steps from p; yes(at + k) says whether an action of the k-th one calls YYVALID. */
  ghost function PlainRun(T: Tables, input: nat -> Lexeme, p: Plain, yes: nat -> bool, at: nat, n: nat): Plain
    requires Shaped(T)
  {
    if n == 0 then p else PlainStep(T, input, PlainRun(T, input, p, yes, at, n - 1), yes(at + n - 1))
  }

  lemma {:induction false} PlainRunSum(T: Tables, input: nat -> Lexeme, p: Plain, yes: nat -> bool, at: nat, n: nat,
                                       m: nat)
    requires Shaped(T)
    ensures PlainRun(T, input, p, yes, at, n + m) == PlainRun(T, input, PlainRun(T, input, p, yes, at, n), yes, at + n,
        m)
    decreases m
  {
    if m > 0 {
      PlainRunSum(T, input, p, yes, at, n, m - 1);
    }
  }

  /** The runs of the parser with a queue are those of the parser without one. */
  lemma {:induction false} RunMeans(g: Packed, A: Automaton, T: Tables, input: nat -> Lexeme, yes: nat -> bool, n: nat,
                                    m: nat)
    requires TablesSound(g, A, T)
    ensures Meaning(Run(T, input, yes, n + m)) == PlainRun(T, input, Meaning(Run(T, input, yes, n)), yes, n, m)
    decreases m
  {
    hide TablesSound, QueueOK, RunOK, Step, PlainStep, Shaped, Packed.WellFormed, Meaning;
    TablesShaped(g, A, T);
    if m > 0 {
      RunMeans(g, A, T, input, yes, n, m - 1);
      RunGood(g, A, T, input, yes, n + m - 1);
      var c := Run(T, input, yes, n + m - 1);
      if c.status.Running? {
        StepMeans(g, A, T, c, input, yes(n + m - 1));
      } else {
        StopMeans(T, c, input, yes(n + m - 1));
      }
    }
  }

  lemma StopMeans(T: Tables, c: Config, input: nat -> Lexeme, valid: bool)
    requires Shaped(T) && !c.status.Running?
    ensures Meaning(Step(T, input, c, valid)) == PlainStep(T, input, Meaning(c), valid)
  {}

  lemma QuietStep(T: Tables, input: nat -> Lexeme, p: Plain, valid: bool)
    requires Shaped(T) && p.status.Running? && p.saves == [] && Onward(T, input, p.here).Next?
    ensures PlainStep(T, input, p, valid) == p.(here := Onward(T, input, p.here).spot)
  {}

  lemma {:induction false} OneStep(T: Tables, input: nat -> Lexeme, p: Plain, yes: nat -> bool, at: nat, n: nat)
    requires Shaped(T)
    ensures PlainRun(T, input, p, yes, at, 1 + n) == PlainRun(T, input, PlainStep(T, input, p, yes(at)), yes, at + 1, n)
  {
    SingleStep(T, input, p, yes, at);
    PlainRunSum(T, input, p, yes, at, 1, n);
  }

  lemma SingleStep(T: Tables, input: nat -> Lexeme, p: Plain, yes: nat -> bool, at: nat)
    requires Shaped(T)
    ensures PlainRun(T, input, p, yes, at, 1) == PlainStep(T, input, p, yes(at))
  {
    assert PlainRun(T, input, p, yes, at, 0) == p;
  }

  /** The first n steps from p are made outside any trial. */
  ghost predicate Outside(T: Tables, input: nat -> Lexeme, p: Plain, yes: nat -> bool, at: nat, n: nat)
    requires Shaped(T)
  {
    forall j: nat :: j <= n ==>
      PlainRun(T, input, p, yes, at, j).status.Running? && PlainRun(T, input, p, yes, at, j).saves == []
  }

  lemma OutsideSum(T: Tables, input: nat -> Lexeme, p: Plain, yes: nat -> bool, at: nat, n: nat, m: nat)
    requires Shaped(T) && Outside(T, input, p, yes, at, n)
    requires Outside(T, input, PlainRun(T, input, p, yes, at, n), yes, at + n, m)
    ensures Outside(T, input, p, yes, at, n + m)
  {
    hide PlainRun, Shaped;
    forall j: nat | j <= n + m
      ensures PlainRun(T, input, p, yes, at, j).status.Running? && PlainRun(T, input, p, yes, at, j).saves == []
    {
      if j > n {
        PlainRunSum(T, input, p, yes, at, n, j - n);
      }
    }
  }

  lemma OutsideOne(T: Tables, input: nat -> Lexeme, p: Plain, yes: nat -> bool, at: nat)
    requires Shaped(T) && p.status.Running? && p.saves == []
    ensures Outside(T, input, p, yes, at, 0)
    ensures PlainStep(T, input, p, yes(at)).status.Running? && PlainStep(T, input, p, yes(at)).saves == [] ==>
        Outside(T, input, p, yes, at, 1)
  {
    hide PlainStep, Shaped;
    SingleStep(T, input, p, yes, at);
    assert PlainRun(T, input, p, yes, at, 0) == p;
  }

  /** Outside a trial, steps without a choice lead where they lead. */
  lemma {:induction false} QuietRun(T: Tables, input: nat -> Lexeme, p: Plain, k: Spot, n: nat, yes: nat -> bool,
                                    at: nat)
    requires Shaped(T) && p.status.Running? && p.saves == [] && LeadsIn(T, input, p.here, k, n)
    ensures PlainRun(T, input, p, yes, at, n) == p.(here := k) && Outside(T, input, p, yes, at, n)
    decreases n
  {
    hide PlainStep, Onward, Shaped, Outside, PlainRun;
    OutsideOne(T, input, p, yes, at);
    if n > 0 {
      var q := p.(here := Onward(T, input, p.here).spot);
      QuietRun(T, input, q, k, n - 1, yes, at + 1);
      QuietStep(T, input, p, yes(at));
      OneStep(T, input, p, yes, at, n - 1);
      SingleStep(T, input, p, yes, at);
      OutsideSum(T, input, p, yes, at, 1, n - 1);
    } else {
      NoSteps(T, input, p, yes, at);
    }
  }

  lemma NoSteps(T: Tables, input: nat -> Lexeme, p: Plain, yes: nat -> bool, at: nat)
    requires Shaped(T)
    ensures PlainRun(T, input, p, yes, at, 0) == p
  {}

  /** A spot, and an action performed there. */
  datatype Act = Act(spot: Spot, action: Action)

  /** After the choice of t, action is performed at spot: it is the choice itself, or decided by the
      tables where the choice leads. */
  ghost predicate EndsIn(T: Tables, input: nat -> Lexeme, t: Turn, act: Act)
    requires Shaped(T)
  {
    && Decide(T, input, t.spot).Fork?
    && if t.spot == act.spot then act.action == Alternative(T, Decide(T, input, t.spot).e, t.ctry)
       else
         && ComesTo(T, input, t, act.spot) && act.action == Decide(T, input, act.spot)
         && (act.action.DoShift? || act.action.DoReduce?)
  }

  /** The next step from w performs act, outside any trial and with no path left. */
  ghost predicate Performs(T: Tables, input: nat -> Lexeme, w: Plain, act: Act)
    requires Shaped(T)
  {
    && w.status.Running? && w.saves == [] && w.here == act.spot
    && forall valid: bool :: PlainStep(T, input, w, valid) == PlainDo(T, input, w.(path := []), act.action, valid)
  }

  lemma ChoiceStep(T: Tables, input: nat -> Lexeme, p: Plain, k: Spot, valid: bool)
    requires Shaped(T) && p.status.Running? && p.saves == [] && p.path != [] && p.here == p.path[0].spot
    requires ComesTo(T, input, p.path[0], k)
    ensures var q := PlainStep(T, input, p, valid);
            q == p.(path := p.path[1..], here := q.here) && Leads(T, input, q.here, k)
  {}

  /** The action is the last choice of the path itself. */
  lemma LastChoice(T: Tables, input: nat -> Lexeme, p: Plain, act: Act)
    requires Shaped(T) && p.status.Running? && p.saves == [] && |p.path| == 1 && p.here == p.path[0].spot == act.spot
    requires EndsIn(T, input, p.path[0], act)
    ensures Performs(T, input, p, act)
  {
    assert p.path[1..] == [];
  }

  lemma EndsFurther(T: Tables, input: nat -> Lexeme, t: Turn, act: Act)
    requires Shaped(T) && EndsIn(T, input, t, act) && t.spot != act.spot
    ensures ComesTo(T, input, t, act.spot)
  {}

  /** The action is decided by the tables, after the last choice of the path. */
  lemma Decided(T: Tables, input: nat -> Lexeme, p: Plain, t: Turn, act: Act)
    requires Shaped(T) && p.status.Running? && p.saves == [] && p.path == [] && p.here == act.spot
    requires EndsIn(T, input, t, act) && t.spot != act.spot
    ensures Performs(T, input, p, act)
  {}

  /** A path is followed to its end, whatever its actions say. */
  lemma {:induction false} PathRuns(T: Tables, input: nat -> Lexeme, p: Plain, act: Act, yes: nat -> bool, at: nat)
    returns (n: nat)
    requires Shaped(T) && p.status.Running? && p.saves == [] && p.path != [] && Linked(T, input, p.path)
    requires Leads(T, input, p.here, p.path[0].spot) && EndsIn(T, input, p.path[|p.path| - 1], act)
    ensures Performs(T, input, PlainRun(T, input, p, yes, at, n), act) && Outside(T, input, p, yes, at, n)
    decreases |p.path|
  {
    hide PlainStep, Onward, Shaped, ComesTo, EndsIn, Performs, PlainRun, LeadsIn, Outside;
    var n0: nat :| LeadsIn(T, input, p.here, p.path[0].spot, n0);
    QuietRun(T, input, p, p.path[0].spot, n0, yes, at);
    var p0 := p.(here := p.path[0].spot);
    var t := p.path[0];
    if |p.path| == 1 && t.spot == act.spot {
      n := n0;
      LastChoice(T, input, p0, act);
    } else {
      var k := if |p.path| == 1 then act.spot else p.path[1].spot;
      assert |p.path| > 1 ==> ComesTo(T, input, p.path[0], p.path[1].spot);
      if |p.path| == 1 {
        EndsFurther(T, input, t, act);
      }
      ChoiceStep(T, input, p0, k, yes(at + n0));
      var p1 := PlainStep(T, input, p0, yes(at + n0));
      var m: nat;
      if |p.path| == 1 {
        m :| LeadsIn(T, input, p1.here, k, m);
        QuietRun(T, input, p1, k, m, yes, at + n0 + 1);
        Decided(T, input, p1.(here := k), t, act);
      } else {
        TailLinked(T, input, p.path);
        m := PathRuns(T, input, p1, act, yes, at + n0 + 1);
      }
      OneStep(T, input, p0, yes, at + n0, m);
      PlainRunSum(T, input, p, yes, at, n0, 1 + m);
      OutsideOne(T, input, p0, yes, at + n0);
      SingleStep(T, input, p0, yes, at + n0);
      OutsideSum(T, input, p0, yes, at + n0, 1, m);
      OutsideSum(T, input, p, yes, at, n0, 1 + m);
      n := n0 + (1 + m);
    }
  }

  lemma TailLinked(T: Tables, input: nat -> Lexeme, turns: seq<Turn>)
    requires Shaped(T) && turns != [] && Linked(T, input, turns)
    ensures Linked(T, input, turns[1..])
  {
    forall i, j | 0 <= i < j < |turns[1..]| && j == i + 1
      ensures ComesTo(T, input, turns[1..][i], turns[1..][j].spot)
    {
      assert ComesTo(T, input, turns[i + 1], turns[j + 1].spot);
    }
  }

  /** The reduction with which backtracking resumes. */
  ghost function Resumed(T: Tables, p: Plain): Act
    decreases |p.saves|
  {
    if p.saves == [] || !(0 <= NextTry(p) < |T.ctable|) then Act(p.here, Stuck)
    else if T.ctable[NextTry(p)] >= 0 then Act(p.saves[|p.saves| - 1].spot, DoReduce(T.ctable[NextTry(p)]))
    else Resumed(T, GivenUp(p))
  }

  /** What the next step from p performs, and where, when no path is followed. */
  ghost function Acting(T: Tables, input: nat -> Lexeme, p: Plain): Act
    requires Shaped(T)
  {
    match Decide(T, input, p.here)
    case Fork(e) => Act(p.here, Alternative(T, e, if 0 <= e < |T.ctable| && T.ctable[e] == -1 then e + 1 else e))
    case Stuck => Resumed(T, p)
    case a => Act(p.here, a)
  }

  /** The path set up by a trial that succeeds ends with the action it succeeded at. */
  ghost predicate Returns(T: Tables, input: nat -> Lexeme, q: Plain, act: Act, valid: bool)
    requires Shaped(T)
  {
    q.path != [] ==>
      && q.status.Running? && q.saves == [] && EndsIn(T, input, q.path[|q.path| - 1], act)
      && (valid || Perform(T, input, act.spot, act.action).Done?)
  }

  lemma {:induction false} BacktrackReturns(g: Packed, A: Automaton, T: Tables, input: nat -> Lexeme, p: Plain,
                                            valid: bool)
    requires TablesSound(g, A, T) && TurnsOK(g, A, T, input, p) && p.status.Running? && p.path == []
    ensures Returns(T, input, PlainBacktrack(T, input, p, valid), Resumed(T, p), valid)
    decreases |p.saves|
  {
    hide TablesSound, TurnOK, Linked, Decide, Perform, Packed.WellFormed, Shaped;
    TablesShaped(g, A, T);
    if p.saves != [] {
      NextOfLast(g, A, T, input, p);
      GiveUpOK(g, A, T, input, p);
      if T.ctable[NextTry(p)] < 0 {
        BacktrackReturns(g, A, T, input, GivenUp(p), valid);
      }
    }
  }

  /** The next alternative of the innermost save is what its turn would choose. */
  lemma NextOfLast(g: Packed, A: Automaton, T: Tables, input: nat -> Lexeme, p: Plain)
    requires TablesSound(g, A, T) && TurnsOK(g, A, T, input, p) && p.saves != []
    ensures Shaped(T) && 0 <= NextTry(p) < |T.ctable|
    ensures var t := p.saves[|p.saves| - 1];
            && Decide(T, input, t.spot).Fork?
            && (T.ctable[NextTry(p)] >= 0 ==>
                Alternative(T, Decide(T, input, t.spot).e, t.ctry + 1) == DoReduce(T.ctable[NextTry(p)]))
  {
    NextAlternative(g, A, T, input, p.saves[|p.saves| - 1]);
  }

  lemma TurnForks(g: Packed, A: Automaton, T: Tables, input: nat -> Lexeme, t: Turn)
    requires g.WellFormed() && Shaped(T) && TurnOK(g, A, T, input, t)
    ensures Decide(T, input, t.spot).Fork?
  {}

  /** A step that ends a trial well sets up a path that ends in what the step was about. */
  lemma StepReturns(g: Packed, A: Automaton, T: Tables, input: nat -> Lexeme, p: Plain, valid: bool)
    requires TablesSound(g, A, T) && PlainOK(g, A, T, input, p) && p.status.Running? && p.path == []
    ensures Returns(T, input, PlainStep(T, input, p, valid), Acting(T, input, p), valid)
  {
    hide TablesSound, Perform, Packed.WellFormed, Shaped, TurnOK, Decide, Linked, ComesTo, Leads;
    TablesShaped(g, A, T);
    match Decide(T, input, p.here)
    case Fork(e) =>
    case Stuck =>
      BacktrackReturns(g, A, T, input, p, valid);
    case a =>
      if p.saves != [] {
        TurnForks(g, A, T, input, p.saves[|p.saves| - 1]);
      }
  }

  lemma MeaningEnds(c: Config)
    ensures Meaning(c).status == c.status && (c.status.Accepted? ==> Meaning(c).ret == c.ret)
    ensures |Meaning(c).saves| == |c.saves| && |Meaning(c).path| == |c.path|
  {}

  /** After a trial that succeeded in round n, by a call of YYVALID or at the end of the input, the
      replay comes to the very spot where it did, outside any trial and with all its choices made,
      and performs the same action there. */
  lemma ReplayEnds(g: Packed, A: Automaton, T: Tables, input: nat -> Lexeme, yes: nat -> bool, n: nat) returns (m: nat)
    requires TablesSound(g, A, T) && Run(T, input, yes, n).status.Running? && Run(T, input, yes, n).path == []
    requires Run(T, input, yes, n + 1).path != []
    ensures var act := Acting(T, input, Meaning(Run(T, input, yes, n)));
            && m > n && Performs(T, input, Meaning(Run(T, input, yes, m)), act)
            && (yes(n) || Perform(T, input, act.spot, act.action).Done?)
    ensures forall j: nat :: n < j <= m ==> Run(T, input, yes, j).status.Running? && Run(T, input, yes, j).saves == []
  {
    hide TablesSound, QueueOK, RunOK, Step, PlainStep, Performs, Returns, Packed.WellFormed, Shaped, Acting, Perform,
        Run,
        Outside, Meaning;
    TablesShaped(g, A, T);
    RunGood(g, A, T, input, yes, n);
    RunGood(g, A, T, input, yes, n + 1);
    var p, act := Meaning(Run(T, input, yes, n)), Acting(T, input, Meaning(Run(T, input, yes, n)));
    RunMeans(g, A, T, input, yes, n, 1);
    MeaningEnds(Run(T, input, yes, n));
    MeaningEnds(Run(T, input, yes, n + 1));
    var l := ReplayFrom(g, A, T, input, p, yes, n);
    RunMeans(g, A, T, input, yes, n, l);
    SingleStep(T, input, p, yes, n);
    forall j: nat | n < j <= n + l
      ensures Run(T, input, yes, j).status.Running? && Run(T, input, yes, j).saves == []
    {
      RunMeans(g, A, T, input, yes, n + 1, j - (n + 1));
      OutsideAt(T, input, PlainStep(T, input, p, yes(n)), yes, n + 1, l - 1, j - (n + 1));
      MeaningEnds(Run(T, input, yes, j));
    }
    m := n + l;
  }

  lemma OutsideAt(T: Tables, input: nat -> Lexeme, p: Plain, yes: nat -> bool, at: nat, n: nat, j: nat)
    requires Shaped(T) && Outside(T, input, p, yes, at, n) && j <= n
    ensures PlainRun(T, input, p, yes, at, j).status.Running? && PlainRun(T, input, p, yes, at, j).saves == []
  {}

  lemma ReplayFrom(g: Packed, A: Automaton, T: Tables, input: nat -> Lexeme, p: Plain, yes: nat -> bool, at: nat)
    returns (m: nat)
    requires TablesSound(g, A, T) && RunOK(g, A, T, input, p) && p.status.Running? && p.path == []
    requires PlainRun(T, input, p, yes, at, 1).path != []
    ensures m > 0 && Performs(T, input, PlainRun(T, input, p, yes, at, m), Acting(T, input, p))
    ensures Outside(T, input, PlainStep(T, input, p, yes(at)), yes, at + 1, m - 1)
    ensures yes(at) || Perform(T, input, Acting(T, input, p).spot, Acting(T, input, p).action).Done?
  {
    hide TablesSound, TurnOK, SpotOK, PlainStep, Performs, Acting, Packed.WellFormed, Shaped, Perform, EndsIn, ComesTo,
        Decide, Outside;
    TablesShaped(g, A, T);
    var q := PlainStep(T, input, p, yes(at));
    SingleStep(T, input, p, yes, at);
    StepReturns(g, A, T, input, p, yes(at));
    StepOK(g, A, T, input, p, yes(at));
    m := PathRuns(T, input, q, Acting(T, input, p), yes, at + 1);
    PlainRunSum(T, input, p, yes, at, 1, m);
    m := 1 + m;
  }

  lemma DoneAccepts(T: Tables, input: nat -> Lexeme, w: Plain, act: Act, valid: bool)
    requires Shaped(T) && Performs(T, input, w, act) && Perform(T, input, act.spot, act.action).Done?
    ensures var q := PlainStep(T, input, w, valid);
            q.status.Accepted? && q.ret == Perform(T, input, act.spot, act.action).tree
  {}

  /** A trial that reached the end of the input is followed by a replay that accepts. */
  lemma AcceptedTrialAccepts(g: Packed, A: Automaton, T: Tables, input: nat -> Lexeme, yes: nat -> bool, n: nat)
    returns (m: nat)
    requires TablesSound(g, A, T) && Run(T, input, yes, n).status.Running? && Run(T, input, yes, n).path == []
    requires Run(T, input, yes, n + 1).path != [] && !yes(n)
    ensures Run(T, input, yes, m).status.Accepted?
    ensures var act := Acting(T, input, Meaning(Run(T, input, yes, n)));
            Perform(T, input, act.spot, act.action).Done? &&
                Run(T, input, yes, m).ret == Perform(T, input, act.spot, act.action).tree
  {
    hide TablesSound, PlainStep, Acting, Perform, Packed.WellFormed, Shaped, Performs, Meaning, Run, PlainRun;
    TablesShaped(g, A, T);
    var act := Acting(T, input, Meaning(Run(T, input, yes, n)));
    m := ReplayEnds(g, A, T, input, yes, n);
    RunMeans(g, A, T, input, yes, m, 1);
    var w := Meaning(Run(T, input, yes, m));
    SingleStep(T, input, w, yes, m);
    DoneAccepts(T, input, w, act, yes(m));
    MeaningEnds(Run(T, input, yes, m + 1));
    m := m + 1;
  }
}

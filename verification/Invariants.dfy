/** skeleton.c: what every action offered keeps, every run keeps, through its trials, its backtracking
    and its replays. */
module Invariants {
  import opened Grammar
  import opened LR0
  import opened Output
  import opened Machine
  import opened MachineStacks
  import opened Trials
  import opened LexemeQueue
  import opened Skeleton
  import opened Replay
  import opened Search
  import opened Completeness
  import opened Endings
  import opened Commits

  type Kept = Spot -> bool

  ghost predicate Closed(T: Tables, input: nat -> Lexeme, J: Kept)
    requires Shaped(T)
  {
    forall k: Spot, l: Spot :: J(k) && MayStep(T, input, k, l) ==> J(l)
  }

  ghost predicate AllKeep(J: Kept, turns: seq<Turn>) {
    forall i :: 0 <= i < |turns| ==> J(turns[i].spot)
  }

  /** It holds of the present spot and of every spot that is saved or to be replayed. */
  ghost predicate Keeps(J: Kept, p: Plain) {
    J(p.here) && AllKeep(J, p.saves) && AllKeep(J, p.path)
  }

  ghost predicate DoneFrom(T: Tables, input: nat -> Lexeme, J: Kept, k: Spot, a: Action, l: Spot, tree: Tree)
    requires Shaped(T)
  {
    J(k) && MayDo(T, input, k, a) && Perform(T, input, k, a) == Done(l, tree)
  }

  /** The parse ended with an action offered where it held. */
  ghost predicate EndsWell(T: Tables, input: nat -> Lexeme, J: Kept, tree: Tree)
    requires Shaped(T)
  {
    exists k: Spot, a: Action, l: Spot :: DoneFrom(T, input, J, k, a, l, tree)
  }

  lemma DecidedOffered(T: Tables, input: nat -> Lexeme, k: Spot)
    requires Shaped(T) && (Decide(T, input, k).DoShift? || Decide(T, input, k).DoReduce?)
    ensures MayDo(T, input, k, Decide(T, input, k))
  {}

  /** The alternative a turn makes is one of those offered. */
  lemma TurnOffered(g: Packed, A: Automaton, T: Tables, input: nat -> Lexeme, t: Turn)
    requires g.WellFormed() && Shaped(T) && TurnOK(g, A, T, input, t)
    ensures Decide(T, input, t.spot).Fork?
    ensures MayDo(T, input, t.spot, Alternative(T, Decide(T, input, t.spot).e, t.ctry))
  {
    var j := TurnChooses(g, A, T, input, t);
    assert Decide(T, input, t.spot).e >= 0;
    assert IsAlternative(T, Decide(T, input, t.spot).e, j, Alternative(T, Decide(T, input, t.spot).e, t.ctry));
  }

  /** Where backtracking resumes it takes an alternative that is offered, and keeps to the spots saved. */
  lemma {:induction false} ResumedOffered(g: Packed, A: Automaton, T: Tables, input: nat -> Lexeme, p: Plain, J: Kept)
    requires TablesSound(g, A, T) && TurnsOK(g, A, T, input, p) && AllKeep(J, p.saves)
    ensures Shaped(T) && AllKeep(J, ResumedTrial(T, p))
    ensures var act := Resumed(T, p);
            !act.action.Stuck? ==> J(act.spot) && MayDo(T, input, act.spot, act.action)
    decreases |p.saves|
  {
    hide TablesSound, TurnOK, Linked, Decide, Packed.WellFormed, Shaped, MayDo;
    TablesShaped(g, A, T);
    if p.saves != [] {
      var t := p.saves[|p.saves| - 1];
      GiveUpOK(g, A, T, input, p);
      if T.ctable[NextTry(p)] >= 0 {
        NextAlternative(g, A, T, input, t);
        TurnOffered(g, A, T, input, t.(ctry := t.ctry + 1));
      } else {
        ResumedOffered(g, A, T, input, GivenUp(p), J);
      }
    }
  }

  lemma ActingOffered(g: Packed, A: Automaton, T: Tables, input: nat -> Lexeme, p: Plain, J: Kept)
    requires TablesSound(g, A, T) && PlainOK(g, A, T, input, p) && Keeps(J, p)
    ensures Shaped(T) && AllKeep(J, Trial(T, input, p))
    ensures var act := Acting(T, input, p);
            !act.action.Stuck? ==> J(act.spot) && MayDo(T, input, act.spot, act.action)
  {
    hide TablesSound, TurnOK, Linked, Decide, Packed.WellFormed, Shaped, MayDo, ComesTo, Leads, SpotOK, Alternative;
    TablesShaped(g, A, T);
    match Decide(T, input, p.here)
    case Fork(e) =>
      FirstOffered(g, A, T, input, p.here);
    case Stuck =>
      ResumedOffered(g, A, T, input, p, J);
    case a =>
      DecidedOffered(T, input, p.here);
  }

  lemma FirstOffered(g: Packed, A: Automaton, T: Tables, input: nat -> Lexeme, k: Spot)
    requires TablesSound(g, A, T) && Shaped(T) && g.WellFormed() && SpotOK(g, A, input, k)
    requires Decide(T, input, k).Fork?
    ensures MayDo(T, input, k, Alternative(T, Decide(T, input, k).e, First(T, Decide(T, input, k).e)))
  {
    SomeChoice(g, A, T, input, k);
    assert IsAlternative(T, Decide(T, input, k).e, 0,
        Alternative(T, Decide(T, input, k).e, First(T, Decide(T, input, k).e)));
  }

  lemma MovesKeep(T: Tables, input: nat -> Lexeme, p: Plain, q: Plain, act: Act, trial: seq<Turn>, valid: bool, J: Kept)
    requires Shaped(T) && Closed(T, input, J) && Moves(T, input, p, q, act, trial, valid) && AllKeep(J, trial)
    requires !act.action.Stuck? ==> J(act.spot) && MayDo(T, input, act.spot, act.action)
    ensures q.status.Running? ==> Keeps(J, q)
    ensures q.status.Accepted? ==> EndsWell(T, input, J, q.ret)
  {
    hide Perform, MayDo, Shaped;
    var m := Perform(T, input, act.spot, act.action);
    if !act.action.Stuck? && m.Next? {
      assert MayStepBy(T, input, act.spot, m.spot, act.action);
    }
    if !act.action.Stuck? && m.Done? {
      assert DoneFrom(T, input, J, act.spot, act.action, m.spot, m.tree);
    }
  }

  /** A step of a replay takes what is offered. */
  lemma ReplayKeeps(g: Packed, A: Automaton, T: Tables, input: nat -> Lexeme, p: Plain, valid: bool, J: Kept)
    requires TablesSound(g, A, T) && PlainOK(g, A, T, input, p) && p.status.Running? && p.path != []
    requires Shaped(T) && Closed(T, input, J) && Keeps(J, p)
    ensures var q := PlainStep(T, input, p, valid);
            (q.status.Running? ==> Keeps(J, q)) && (q.status.Accepted? ==> EndsWell(T, input, J, q.ret))
  {
    hide TablesSound, TurnOK, Linked, Decide, Packed.WellFormed, Shaped, MayDo, ComesTo, Leads, SpotOK, Alternative,
        Perform, Closed;
    TablesShaped(g, A, T);
    OnPathNoSaves(g, A, T, input, p);
    match Decide(T, input, p.here)
    case Fork(e) =>
      PathArrived(g, A, T, input, p);
      TurnOffered(g, A, T, input, p.path[0]);
      ReplayedKeeps(T, input, p.(path := p.path[1..]), Alternative(T, e, p.path[0].ctry), valid, J);
    case Stuck =>
    case a =>
      DecidedOffered(T, input, p.here);
      ReplayedKeeps(T, input, p, a, valid, J);
  }

  lemma ReplayedKeeps(T: Tables, input: nat -> Lexeme, p: Plain, a: Action, valid: bool, J: Kept)
    requires Shaped(T) && Closed(T, input, J) && Keeps(J, p) && p.saves == [] && p.status.Running?
    requires MayDo(T, input, p.here, a)
    ensures var q := PlainDo(T, input, p, a, valid);
            (q.status.Running? ==> Keeps(J, q)) && (q.status.Accepted? ==> EndsWell(T, input, J, q.ret))
  {
    hide Perform, MayDo, Shaped;
    var m := Perform(T, input, p.here, a);
    if m.Next? {
      assert MayStepBy(T, input, p.here, m.spot, a);
    }
    if m.Done? {
      assert DoneFrom(T, input, J, p.here, a, m.spot, m.tree);
    }
  }

  /** What every action offered keeps holds of all spots of every run, and where the run accepts. */
  lemma {:induction false} RunKeeps(g: Packed, A: Automaton, T: Tables, input: nat -> Lexeme, yes: nat -> bool, n: nat,
                                    J: Kept)
    requires TablesSound(g, A, T) && Shaped(T) && Closed(T, input, J) && J(Origin())
    ensures var c := Run(T, input, yes, n);
            && (c.status.Running? ==> Keeps(J, Meaning(c)))
            && (c.status.Accepted? ==> EndsWell(T, input, J, c.ret))
  {
    hide TablesSound, RunOK, Shaped, Packed.WellFormed, QueueOK, Meaning, PlainStep, Closed, Keeps, EndsWell, Run;
    TablesShaped(g, A, T);
    if n == 0 {
      StartKeeps(T, input, yes, J);
    } else {
      RunKeeps(g, A, T, input, yes, n - 1, J);
      RunGood(g, A, T, input, yes, n - 1);
      RunStep(g, A, T, input, yes, n - 1);
      var c := Run(T, input, yes, n - 1);
      MeaningEnds(c);
      MeaningEnds(Run(T, input, yes, n));
      if c.status.Running? {
        RunningOK(g, A, T, input, Meaning(c));
        StepKeeps(g, A, T, input, Meaning(c), yes(n - 1), J);
      } else {
        RunEnded(T, input, yes, n - 1, n);
      }
    }
  }

  lemma StartKeeps(T: Tables, input: nat -> Lexeme, yes: nat -> bool, J: Kept)
    requires Shaped(T) && J(Origin())
    ensures Run(T, input, yes, 0).status.Running? && Keeps(J, Meaning(Run(T, input, yes, 0)))
  {
    StartMeans();
  }

  lemma StepKeeps(g: Packed, A: Automaton, T: Tables, input: nat -> Lexeme, p: Plain, valid: bool, J: Kept)
    requires TablesSound(g, A, T) && PlainOK(g, A, T, input, p) && p.status.Running?
    requires Shaped(T) && Closed(T, input, J) && Keeps(J, p)
    ensures var q := PlainStep(T, input, p, valid);
            (q.status.Running? ==> Keeps(J, q)) && (q.status.Accepted? ==> EndsWell(T, input, J, q.ret))
  {
    hide TablesSound, PlainOK, Packed.WellFormed, Shaped, Closed, Keeps, EndsWell, PlainStep, Moves, Acting, Trial,
        MayDo;
    if p.path == [] {
      StepMoves(g, A, T, input, p, valid);
      ActingOffered(g, A, T, input, p, J);
      MovesKeep(T, input, p, PlainStep(T, input, p, valid), Acting(T, input, p), Trial(T, input, p), valid, J);
    } else {
      ReplayKeeps(g, A, T, input, p, valid, J);
    }
  }
}

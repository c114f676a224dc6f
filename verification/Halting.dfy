/** skeleton.c, the end of a search: where no alternatives circle, the sequences of alternatives are
    bounded, and trying them in turn comes to an end. */
module Halting {
  import opened Grammar
  import opened LR0
  import opened GotoMap
  import opened ConflictTable
  import opened Output
  import opened Machine
  import opened MachineStacks
  import opened Trials
  import opened LexemeQueue
  import opened Replay
  import opened Search
  import opened Completeness
  import opened Reductions
  import opened Endings

  /** No sequence of actions offered from k on is longer than d. */
  ghost predicate Within(T: Tables, input: nat -> Lexeme, k: Spot, d: nat)
    requires Shaped(T)
    decreases d
  {
    forall l: Spot :: MayStep(T, input, k, l) ==> d > 0 && Within(T, input, l, d - 1)
  }

  lemma {:induction false} WithinMore(T: Tables, input: nat -> Lexeme, k: Spot, d: nat, e: nat)
    requires Shaped(T) && Within(T, input, k, d) && d <= e
    ensures Within(T, input, k, e)
    decreases d
  {
    forall l: Spot | MayStep(T, input, k, l)
      ensures e > 0 && Within(T, input, l, e - 1)
    {
      WithinMore(T, input, l, d - 1, e - 1);
    }
  }

  ghost predicate Bounded(T: Tables, input: nat -> Lexeme, k: Spot)
    requires Shaped(T)
  {
    exists d: nat :: Within(T, input, k, d)
  }

  /** One bound for the first n choices of a conflict. */
  lemma {:induction false} ChoicesWithin(T: Tables, input: nat -> Lexeme, k: Spot, n: nat) returns (d: nat)
    requires Shaped(T) && Decide(T, input, k).Fork?
    requires forall j: nat :: j < n && Branch(T, input, k, j).Next? ==> Bounded(T, input, Branch(T, input, k, j).spot)
    ensures forall j: nat :: j < n && Branch(T, input, k, j).Next? ==> Within(T, input, Branch(T, input, k, j).spot, d)
  {
    hide Shaped, Branch, Decide, Within;
    if n == 0 {
      d := 0;
    } else {
      d := ChoicesWithin(T, input, k, n - 1);
      if Branch(T, input, k, n - 1).Next? {
        var e: nat :| Within(T, input, Branch(T, input, k, n - 1).spot, e);
        var m := if d < e then e else d;
        forall j: nat | j < n && Branch(T, input, k, j).Next?
          ensures Within(T, input, Branch(T, input, k, j).spot, m)
        {
          WithinMore(T, input, Branch(T, input, k, j).spot, if j < n - 1 then d else e, m);
        }
        d := m;
      }
    }
  }

  /** Every action offered at a conflict is one of its choices, and elsewhere there is one action. */
  lemma StepIsChoice(T: Tables, input: nat -> Lexeme, k: Spot, l: Spot)
    requires Shaped(T) && MayStep(T, input, k, l)
    ensures if Decide(T, input, k).Fork?
            then exists j: nat :: j < Choices(T, input, k) && Branch(T, input, k, j) == Next(l)
            else Onward(T, input, k) == Next(l)
  {
    hide Decode, Alternative, Perform;
    var a :| MayStepBy(T, input, k, l, a);
    if Decide(T, input, k).Fork? {
      var e := Decide(T, input, k).e;
      var j: nat :| IsAlternative(T, e, j, a);
      assert Branch(T, input, k, j) == Next(l);
    }
  }

  lemma ChoiceIsStep(T: Tables, input: nat -> Lexeme, k: Spot, j: nat)
    requires Shaped(T) && Decide(T, input, k).Fork? && j < Choices(T, input, k) && Branch(T, input, k, j).Next?
    ensures MayStep(T, input, k, Branch(T, input, k, j).spot)
  {
    hide Decode, Alternative, Perform;
    var e := Decide(T, input, k).e;
    var a := Alternative(T, e, First(T, e) + j);
    assert IsAlternative(T, e, j, a);
    assert MayStepBy(T, input, k, Branch(T, input, k, j).spot, a);
  }

  lemma OnwardIsStep(T: Tables, input: nat -> Lexeme, k: Spot)
    requires Shaped(T) && Onward(T, input, k).Next?
    ensures MayStep(T, input, k, Onward(T, input, k).spot)
  {
    assert MayStepBy(T, input, k, Onward(T, input, k).spot, Decide(T, input, k));
  }

  /** A spot is bounded if all that follow it are: they are finitely many. */
  lemma BoundedByNext(T: Tables, input: nat -> Lexeme, k: Spot)
    requires Shaped(T) && forall l: Spot :: MayStep(T, input, k, l) ==> Bounded(T, input, l)
    ensures Bounded(T, input, k)
  {
    hide Shaped, Branch, Decide, MayStep, Onward, Choices;
    var d: nat := 0;
    if Decide(T, input, k).Fork? {
      forall j: nat | j < Choices(T, input, k) && Branch(T, input, k, j).Next?
        ensures Bounded(T, input, Branch(T, input, k, j).spot)
      {
        ChoiceIsStep(T, input, k, j);
      }
      d := ChoicesWithin(T, input, k, Choices(T, input, k));
    } else if Onward(T, input, k).Next? {
      OnwardIsStep(T, input, k);
      d :| Within(T, input, Onward(T, input, k).spot, d);
    }
    forall l: Spot | MayStep(T, input, k, l)
      ensures Within(T, input, l, d)
    {
      StepIsChoice(T, input, k, l);
    }
    assert Within(T, input, k, d + 1);
  }

  /** From a spot without bound an action leads to another. */
  ghost function NextUnbounded(T: Tables, input: nat -> Lexeme, k: Spot): (l: Spot)
    requires Shaped(T) && !Bounded(T, input, k)
    ensures MayStep(T, input, k, l) && !Bounded(T, input, l)
  {
    SomeUnbounded(T, input, k);
    var l: Spot :| MayStep(T, input, k, l) && !Bounded(T, input, l);
    l
  }

  lemma SomeUnbounded(T: Tables, input: nat -> Lexeme, k: Spot)
    requires Shaped(T) && !Bounded(T, input, k)
    ensures exists l: Spot :: MayStep(T, input, k, l) && !Bounded(T, input, l)
  {
    if forall l: Spot :: MayStep(T, input, k, l) ==> Bounded(T, input, l) {
      BoundedByNext(T, input, k);
    }
  }

  ghost function Unending(T: Tables, input: nat -> Lexeme, k: Spot, n: nat): (l: Spot)
    requires Shaped(T) && !Bounded(T, input, k)
    ensures !Bounded(T, input, l)
  {
    if n == 0 then k else NextUnbounded(T, input, Unending(T, input, k, n - 1))
  }

  /** Where no alternatives circle, on an input with an end token, all sequences of them are bounded. */
  lemma NoCirclesBounded(g: Packed, A: Automaton, T: Tables, input: nat -> Lexeme, end: nat)
    requires TablesSound(g, A, T) && Shaped(T) && g.WellFormed() && NoCircles(A, T, true) && input(end).code <= 0
    ensures Bounded(T, input, Origin())
  {
    hide TablesSound, Shaped, Packed.WellFormed, Bounded, MayStep, NoCircles, Circling;
    if !Bounded(T, input, Origin()) {
      var h: nat -> Spot := (n: nat) => Unending(T, input, Origin(), n);
      forall n: nat
        ensures StepsAt(T, input, h, n)
      {
        assert h(n + 1) == NextUnbounded(T, input, h(n));
      }
      OriginOK(g, A, T, input);
      var n := OnwardsCircles(g, A, T, input, h, end);
    }
  }

  /** The trial at hand has succeeded, or the parse has. */
  predicate Successful(q: Plain) {
    q.path != [] || q.status.Accepted?
  }

  ghost predicate Succeeds(T: Tables, input: nat -> Lexeme, p: Plain, yes: nat -> bool, at: nat)
    requires Shaped(T)
  {
    exists m: nat :: Successful(PlainRun(T, input, p, yes, at, m))
  }

  lemma SucceedsLater(T: Tables, input: nat -> Lexeme, p: Plain, yes: nat -> bool, at: nat, n: nat)
    requires Shaped(T) && Succeeds(T, input, PlainRun(T, input, p, yes, at, n), yes, at + n)
    ensures Succeeds(T, input, p, yes, at)
  {
    hide PlainRun, Shaped;
    var m: nat :| Successful(PlainRun(T, input, PlainRun(T, input, p, yes, at, n), yes, at + n, m));
    PlainRunSum(T, input, p, yes, at, n, m);
  }

  lemma SucceedsNext(T: Tables, input: nat -> Lexeme, p: Plain, yes: nat -> bool, at: nat)
    requires Shaped(T) && Successful(PlainStep(T, input, p, yes(at)))
    ensures Succeeds(T, input, p, yes, at)
  {
    hide PlainRun, Shaped, PlainStep;
    SingleStep(T, input, p, yes, at);
  }

  /** Choice j of the conflict at p is reached once those before it are refuted: it is being tried, or
      it has ended the parse. */
  ghost predicate Reached(T: Tables, input: nat -> Lexeme, p: Plain, j: nat, q: Plain)
    requires Shaped(T) && Decide(T, input, p.here).Fork?
  {
    match Branch(T, input, p.here, j)
    case Next(l) => q == AtChoice(T, input, p, p.here, j, l)
    case _ => Successful(q)
  }

  lemma ChoicePerforms(g: Packed, A: Automaton, T: Tables, input: nat -> Lexeme, k: Spot, j: nat)
    requires TablesSound(g, A, T) && Shaped(T) && g.WellFormed() && SpotOK(g, A, input, k)
    requires Decide(T, input, k).Fork? && j < Choices(T, input, k)
    ensures !Branch(T, input, k, j).Broken?
  {
    hide TablesSound, Shaped, Packed.WellFormed, Perform, SpotOK, ActionSound, Alternative;
    ChoiceIsSound(g, A, T, input, k, j);
    var e := Decide(T, input, k).e;
    PerformOK(g, A, T, input, k, Alternative(T, e, First(T, e) + j));
  }

  /** The first choice. */
  lemma FirstChoice(T: Tables, input: nat -> Lexeme, p: Plain)
    requires Shaped(T) && p.status.Running? && p.path == [] && Decide(T, input, p.here).Fork?
    requires 0 <= Decide(T, input, p.here).e < |T.ctable| && !Branch(T, input, p.here, 0).Broken?
    ensures Reached(T, input, p, 0, PlainStep(T, input, p, false))
  {}

  /** Backtracking from one choice to the next. */
  lemma NextChoice(g: Packed, A: Automaton, T: Tables, input: nat -> Lexeme, p: Plain, j: nat, here: Spot)
    requires TablesSound(g, A, T) && SpotOK(g, A, input, p.here) && Shaped(T) && Decide(T, input, p.here).Fork?
    requires p.status.Running? && p.path == [] && j + 1 < Choices(T, input, p.here) &&
        !Branch(T, input, p.here, j + 1).Broken?
    ensures Reached(T, input, p, j + 1, PlainBacktrack(T, input, AtChoice(T, input, p, p.here, j, here), false))
  {
    hide TablesSound, Packed.WellFormed, Shaped, Choices, Decide, Perform, TurnOK, SpotOK;
    TablesShaped(g, A, T);
    ChoiceListed(g, A, T, input, p.here, j);
    var q := AtChoice(T, input, p, p.here, j, here);
    assert q.saves[..|q.saves| - 1] == p.saves;
    assert NextTry(q) == First(T, Decide(T, input, p.here).e) + j + 1;
  }

  lemma {:induction false} ChoiceReached(g: Packed, A: Automaton, T: Tables, input: nat -> Lexeme, p: Plain, j: nat,
                                         yes: nat -> bool, at: nat) returns (m: nat)
    requires TablesSound(g, A, T) && PlainOK(g, A, T, input, p) && p.status.Running? && p.path == [] &&
        NeverValid(yes) && Shaped(T)
    requires Decide(T, input, p.here).Fork? && j < Choices(T, input, p.here)
    requires forall i: nat :: i < j ==> BranchRefuted(T, input, p.here, i)
    ensures Reached(T, input, p, j, PlainRun(T, input, p, yes, at, m))
    decreases j
  {
    hide TablesSound, Shaped, Packed.WellFormed, PlainStep, PlainBacktrack, Branch, Choices, PlainRun, TurnOK, SpotOK,
        Linked, ComesTo, Refutes;
    TablesShaped(g, A, T);
    ChoicePerforms(g, A, T, input, p.here, j);
    if j == 0 {
      ChoiceListed(g, A, T, input, p.here, 0);
      FirstChoice(T, input, p);
      SingleStep(T, input, p, yes, at);
      m := 1;
    } else {
      var n := ChoiceReached(g, A, T, input, p, j - 1, yes, at);
      assert BranchRefuted(T, input, p.here, j - 1);
      StaysOK(g, A, T, input, p, yes, at, n);
      var q := PlainRun(T, input, p, yes, at, n);
      var R :| Refutes(T, input, q.here, R);
      var l, k := RefutedRuns(g, A, T, input, q, R, yes, at + n);
      assert q.(here := k) == AtChoice(T, input, p, p.here, j - 1, k);
      NextChoice(g, A, T, input, p, j - 1, k);
      PlainRunSum(T, input, p, yes, at, n, l);
      m := n + l;
    }
  }

  /** From a bounded spot the search comes to an end: the spot is refuted, or some trial succeeds. */
  lemma {:induction false} Resolves(g: Packed, A: Automaton, T: Tables, input: nat -> Lexeme, p: Plain, d: nat,
                                    yes: nat -> bool, at: nat)
    requires TablesSound(g, A, T) && PlainOK(g, A, T, input, p) && p.status.Running? && p.path == [] &&
        NeverValid(yes) && Shaped(T)
    requires Within(T, input, p.here, d)
    ensures Refuted(T, input, p.here) || Succeeds(T, input, p, yes, at)
    decreases d, 1, 0
  {
    hide TablesSound, Shaped, Packed.WellFormed, PlainStep, Branch, Choices, PlainRun, TurnOK, SpotOK, Linked, ComesTo,
        Refuted, Onward, MayStep;
    TablesShaped(g, A, T);
    if Decide(T, input, p.here).Stuck? {
      RefutedStuck(T, input, p.here);
    } else if Decide(T, input, p.here).Fork? {
      ForkResolves(g, A, T, input, p, 0, d, yes, at);
    } else {
      QuietPerforms(g, A, T, input, p);
      SingleStep(T, input, p, yes, at);
      if Onward(T, input, p.here).Next? {
        OnwardIsStep(T, input, p.here);
        StaysOK(g, A, T, input, p, yes, at, 1);
        Resolves(g, A, T, input, PlainRun(T, input, p, yes, at, 1), d - 1, yes, at + 1);
        if Refuted(T, input, Onward(T, input, p.here).spot) {
          OnwardLeads(T, input, p.here);
          RefutedBack(T, input, p.here, Onward(T, input, p.here).spot);
        } else {
          SucceedsLater(T, input, p, yes, at, 1);
        }
      } else {
        SucceedsNext(T, input, p, yes, at);
      }
    }
  }

  lemma OnwardLeads(T: Tables, input: nat -> Lexeme, k: Spot)
    requires Shaped(T) && Onward(T, input, k).Next?
    ensures Leads(T, input, k, Onward(T, input, k).spot)
  {
    assert LeadsIn(T, input, Onward(T, input, k).spot, Onward(T, input, k).spot, 0);
    assert LeadsIn(T, input, k, Onward(T, input, k).spot, 1);
  }

  /** A step without a choice, in a trial or not. */
  lemma QuietPerforms(g: Packed, A: Automaton, T: Tables, input: nat -> Lexeme, p: Plain)
    requires TablesSound(g, A, T) && PlainOK(g, A, T, input, p) && p.status.Running? && p.path == [] && Shaped(T)
    requires Decide(T, input, p.here).DoShift? || Decide(T, input, p.here).DoReduce?
    ensures if Onward(T, input, p.here).Next?
            then PlainStep(T, input, p, false) == p.(here := Onward(T, input, p.here).spot)
            else Successful(PlainStep(T, input, p, false))
  {
    hide TablesSound, Packed.WellFormed, SpotOK, TurnOK, Shaped, Linked, ComesTo, Perform, ActionSound, Decide;
    TablesShaped(g, A, T);
    DecideSound(g, A, T, input, p.here);
    PerformOK(g, A, T, input, p.here, Decide(T, input, p.here));
  }

  lemma ForkResolves(g: Packed, A: Automaton, T: Tables, input: nat -> Lexeme, p: Plain, j: nat, d: nat,
                     yes: nat -> bool, at: nat)
    requires TablesSound(g, A, T) && PlainOK(g, A, T, input, p) && p.status.Running? && p.path == [] &&
        NeverValid(yes) && Shaped(T)
    requires Within(T, input, p.here, d) && Decide(T, input, p.here).Fork? && j <= Choices(T, input, p.here)
    requires forall i: nat :: i < j ==> BranchRefuted(T, input, p.here, i)
    ensures Refuted(T, input, p.here) || Succeeds(T, input, p, yes, at)
    decreases d, 0, Choices(T, input, p.here) - j
  {
    hide TablesSound, Shaped, Packed.WellFormed, PlainStep, Branch, Choices, PlainRun, TurnOK, SpotOK, Linked, ComesTo,
        Refuted, Decide, MayStep;
    TablesShaped(g, A, T);
    if j == Choices(T, input, p.here) {
      RefutedFork(T, input, p.here);
    } else {
      var m := ChoiceReached(g, A, T, input, p, j, yes, at);
      var q := PlainRun(T, input, p, yes, at, m);
      if Branch(T, input, p.here, j).Next? {
        ChoiceIsStep(T, input, p.here, j);
        StaysOK(g, A, T, input, p, yes, at, m);
        Resolves(g, A, T, input, q, d - 1, yes, at + m);
        if BranchRefuted(T, input, p.here, j) {
          ForkResolves(g, A, T, input, p, j + 1, d, yes, at);
        } else {
          SucceedsLater(T, input, p, yes, at, m);
        }
      }
    }
  }

  /** A search whose sequences of alternatives are bounded ends. */
  lemma BoundedEnds(g: Packed, A: Automaton, T: Tables, input: nat -> Lexeme, yes: nat -> bool)
    requires TablesSound(g, A, T) && Shaped(T) && g.WellFormed() && NeverValid(yes) && Bounded(T, input, Origin())
    ensures Ends(T, input, yes)
  {
    hide TablesSound, Shaped, Packed.WellFormed, PlainRun, Run, PlainOK, Refuted, Within, Meaning;
    OriginOK(g, A, T, input);
    StartMeans();
    var p := Meaning(Start());
    StartRuns();
    var d: nat :| Within(T, input, Origin(), d);
    Resolves(g, A, T, input, p, d, yes, 0);
    if Refuted(T, input, Origin()) {
      var n := RefutedFails(g, A, T, input, yes);
    } else {
      var m: nat :| Successful(PlainRun(T, input, p, yes, 0, m));
      RunStage(g, A, T, input, yes, m);
      SuccessAccepts(g, A, T, input, yes, m);
    }
  }

  lemma StartRuns()
    ensures Meaning(Start()).status.Running?
  {}

  lemma SuccessAccepts(g: Packed, A: Automaton, T: Tables, input: nat -> Lexeme, yes: nat -> bool, n: nat)
    requires TablesSound(g, A, T) && Shaped(T) && g.WellFormed() && NeverValid(yes) &&
        Successful(Meaning(Run(T, input, yes, n)))
    ensures Ends(T, input, yes)
  {
    hide TablesSound, Shaped, Packed.WellFormed, Run, Outcome;
    if !Run(T, input, yes, n).status.Accepted? {
      SearchRun(g, A, T, input, yes, n);
      assert Run(T, input, yes, n).path != [];
      var m: nat :| Run(T, input, yes, m).status.Accepted?;
    }
  }

  /** Where no alternatives circle, a search without YYVALID comes to an end on every input with an
      end token, conflicts or not. */
  lemma SearchEnds(g: Packed, A: Automaton, T: Tables, input: nat -> Lexeme, yes: nat -> bool, end: nat)
    requires TablesSound(g, A, T) && Shaped(T) && g.WellFormed() && NoCircles(A, T, true) && NeverValid(yes) &&
        input(end).code <= 0
    ensures Ends(T, input, yes)
  {
    hide TablesSound, Shaped, Packed.WellFormed, Bounded, NoCircles;
    NoCirclesBounded(g, A, T, input, end);
    BoundedEnds(g, A, T, input, yes);
  }

  /** So the backtracking parser is a decision procedure, where precedence removed nothing. */
  lemma SearchDecides(g: Packed, A: Automaton, gs: Gotos, nullable: seq<bool>, T: Tables, input: nat -> Lexeme,
                      yes: nat -> bool, end: nat) returns (n: nat)
    requires Obeys(g, A, gs, nullable, T) && Shaped(T) && g.WellFormed() && NoCircles(A, T, true) && NeverValid(yes) &&
        input(end).code <= 0
    ensures !Run(T, input, yes, n).status.Running?
    ensures Run(T, input, yes, n).status.Accepted? <==> exists k: nat :: IsSentence(g, input, k)
  {
    hide Obeys, Shaped, Packed.WellFormed, NoCircles, Run, IsSentence;
    ObeysSound(g, A, gs, nullable, T);
    SearchEnds(g, A, T, input, yes, end);
    n :| !Run(T, input, yes, n).status.Running?;
    EndedRunDecides(g, A, gs, nullable, T, input, yes, n);
  }
}

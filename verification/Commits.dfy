/** skeleton.c, YYVALID: what a call of it in a trial commits the parse to, and what an error after it
    comes to. */
module Commits {
  import opened Grammar
  import opened LR0
  import opened Output
  import opened Machine
  import opened MachineStacks
  import opened Trials
  import opened LexemeQueue
  import opened Skeleton
  import opened Replay
  import opened Search

  /** The choices in force once backtracking has resumed with another alternative. */
  ghost function ResumedTrial(T: Tables, p: Plain): seq<Turn>
    decreases |p.saves|
  {
    if p.saves == [] || !(0 <= NextTry(p) < |T.ctable|) then []
    else if T.ctable[NextTry(p)] >= 0 then
        p.saves[..|p.saves| - 1] + [Turn(p.saves[|p.saves| - 1].spot, p.saves[|p.saves| - 1].ctry + 1)]
    else ResumedTrial(T, GivenUp(p))
  }

  /** The choices of the trial that the next action is performed in. */
  ghost function Trial(T: Tables, input: nat -> Lexeme, p: Plain): seq<Turn>
    requires Shaped(T)
  {
    match Decide(T, input, p.here)
    case Fork(e) => p.saves + [Turn(p.here, First(T, e))]
    case Stuck => ResumedTrial(T, p)
    case _ => p.saves
  }

  /** The trial ends well with the action: it calls YYVALID, or comes to the end of the input. */
  ghost predicate Succeeds(T: Tables, input: nat -> Lexeme, act: Act, valid: bool)
    requires Shaped(T)
  {
    (valid && act.action.DoReduce?) || Perform(T, input, act.spot, act.action).Done?
  }

  /** What a step from p to q does, when no path is followed: an error with nothing left to try ends the
      parse; a trial that succeeds leaves its choices as the path, and the parse back at the first of
      them; else the action is performed, in its trial if there is one. */
  ghost predicate Moves(T: Tables, input: nat -> Lexeme, p: Plain, q: Plain, act: Act, trial: seq<Turn>, valid: bool)
    requires Shaped(T)
  {
    if act.action.Stuck? then q == Plain(Failed, act.spot, [], [], p.ret)
    else if trial != [] && Succeeds(T, input, act, valid) then q == Plain(Running, trial[0].spot, [], trial, p.ret)
    else match Perform(T, input, act.spot, act.action)
      case Next(k) => q == Plain(Running, k, trial, [], p.ret)
      case Done(k, tree) => q == Plain(Accepted, k, [], [], tree)
      case Broken => false
  }

  lemma DoMoves(T: Tables, input: nat -> Lexeme, p: Plain, a: Action, valid: bool)
    requires Shaped(T) && p.status.Running? && p.path == [] && !a.Stuck?
    requires !PlainDo(T, input, p, a, valid).status.Crashed?
    ensures Moves(T, input, p, PlainDo(T, input, p, a, valid), Act(p.here, a), p.saves, valid)
  {
    hide Shaped, Reduction;
  }

  lemma {:induction false} BacktrackMoves(g: Packed, A: Automaton, T: Tables, input: nat -> Lexeme, p: Plain,
                                          valid: bool)
    requires TablesSound(g, A, T) && TurnsOK(g, A, T, input, p) && p.status.Running? && p.path == []
    ensures Moves(T, input, p, PlainBacktrack(T, input, p, valid), Resumed(T, p), ResumedTrial(T, p), valid)
    decreases |p.saves|
  {
    hide TablesSound, TurnOK, Linked, Decide, Perform, Packed.WellFormed, Shaped, PlainDo, Moves;
    TablesShaped(g, A, T);
    if p.saves == [] {
      FailMoves(T, input, p, valid);
    } else {
      GiveUpOK(g, A, T, input, p);
      if T.ctable[NextTry(p)] < 0 {
        BacktrackMoves(g, A, T, input, GivenUp(p), valid);
        SameRet(T, input, GivenUp(p), p, PlainBacktrack(T, input, p, valid), Resumed(T, p), ResumedTrial(T, p), valid);
      } else {
        var a := DoReduce(T.ctable[NextTry(p)]);
        RetryOK(g, A, T, input, p, valid);
        DoMoves(T, input, Retried(p), a, valid);
        SameRet(T, input, Retried(p), p, PlainBacktrack(T, input, p, valid), Resumed(T, p), ResumedTrial(T, p), valid);
      }
    }
  }

  lemma FailMoves(T: Tables, input: nat -> Lexeme, p: Plain, valid: bool)
    requires Shaped(T) && p.saves == [] && p.path == []
    ensures Moves(T, input, p, PlainBacktrack(T, input, p, valid), Resumed(T, p), [], valid)
  {}

  lemma SameRet(T: Tables, input: nat -> Lexeme, p: Plain, p': Plain, q: Plain, act: Act, trial: seq<Turn>, valid: bool)
    requires Shaped(T) && Moves(T, input, p, q, act, trial, valid) && p.ret == p'.ret
    ensures Moves(T, input, p', q, act, trial, valid)
  {}

  lemma StepMoves(g: Packed, A: Automaton, T: Tables, input: nat -> Lexeme, p: Plain, valid: bool)
    requires TablesSound(g, A, T) && PlainOK(g, A, T, input, p) && p.status.Running? && p.path == []
    ensures Shaped(T)
    ensures Moves(T, input, p, PlainStep(T, input, p, valid), Acting(T, input, p), Trial(T, input, p), valid)
  {
    hide TablesSound, TurnOK, Linked, Perform, Packed.WellFormed, Shaped, PlainDo, Moves, ComesTo, Leads, Decide;
    TablesShaped(g, A, T);
    StepOK(g, A, T, input, p, valid);
    match Decide(T, input, p.here)
    case Fork(e) =>
      ForkPlace(g, A, T, input, p, e);
      var d := p.(saves := p.saves + [Turn(p.here, First(T, e))]);
      DoMoves(T, input, d, Alternative(T, e, First(T, e)), valid);
      SameRet(T, input, d, p, PlainStep(T, input, p, valid), Acting(T, input, p), Trial(T, input, p), valid);
    case Stuck =>
      BacktrackMoves(g, A, T, input, p, valid);
    case a =>
      DoMoves(T, input, p, a, valid);
  }

  lemma ForkPlace(g: Packed, A: Automaton, T: Tables, input: nat -> Lexeme, p: Plain, e: int)
    requires TablesSound(g, A, T) && PlainOK(g, A, T, input, p) && Decide(T, input, p.here) == Fork(e)
    ensures 0 <= e < |T.ctable| && !Alternative(T, e, First(T, e)).Stuck?
  {
    DecideSound(g, A, T, input, p.here);
    ListStart(g, A, T, Top(p.here.stack), Norm(input(p.here.pos).code), e);
  }

  /** What every round of every run does that follows no path. */
  lemma RoundMoves(g: Packed, A: Automaton, T: Tables, input: nat -> Lexeme, yes: nat -> bool, n: nat)
    requires TablesSound(g, A, T) && Run(T, input, yes, n).status.Running? && Run(T, input, yes, n).path == []
    ensures var p := Meaning(Run(T, input, yes, n));
            Moves(T, input, p, Meaning(Run(T, input, yes, n + 1)), Acting(T, input, p), Trial(T, input, p), yes(n))
  {
    hide TablesSound, Packed.WellFormed, Shaped, Moves, Acting, Trial, Step, PlainStep, PlainOK, QueueOK, Meaning;
    TablesShaped(g, A, T);
    RunGood(g, A, T, input, yes, n);
    MeaningEnds(Run(T, input, yes, n));
    RunStep(g, A, T, input, yes, n);
    StepMoves(g, A, T, input, Meaning(Run(T, input, yes, n)), yes(n));
  }

  lemma RunStep(g: Packed, A: Automaton, T: Tables, input: nat -> Lexeme, yes: nat -> bool, n: nat)
    requires TablesSound(g, A, T)
    ensures Shaped(T)
    ensures Meaning(Run(T, input, yes, n + 1)) == PlainStep(T, input, Meaning(Run(T, input, yes, n)), yes(n))
  {
    hide TablesSound, Packed.WellFormed, Shaped, PlainStep, Meaning, Run;
    TablesShaped(g, A, T);
    RunMeans(g, A, T, input, yes, n, 1);
    SingleStep(T, input, Meaning(Run(T, input, yes, n)), yes, n);
  }

  /** The first choice of a trial stays where it was made. */
  lemma TrialStarts(T: Tables, input: nat -> Lexeme, p: Plain)
    requires Shaped(T)
    ensures Trial(T, input, p) != [] && p.saves != [] ==> Trial(T, input, p)[0].spot == p.saves[0].spot
    ensures Decide(T, input, p.here).DoReduce? ==> Trial(T, input, p) == p.saves
  {
    ResumedStarts(T, p);
  }

  lemma {:induction false} ResumedStarts(T: Tables, p: Plain)
    ensures ResumedTrial(T, p) != [] ==> p.saves != [] && ResumedTrial(T, p)[0].spot == p.saves[0].spot
    decreases |p.saves|
  {
    if p.saves != [] {
      ResumedStarts(T, GivenUp(p));
    }
  }

  /** In round n a reduction of a trial calls YYVALID. */
  ghost predicate Commits(T: Tables, input: nat -> Lexeme, yes: nat -> bool, n: nat)
    requires Shaped(T)
  {
    && Run(T, input, yes, n).status.Running? && Run(T, input, yes, n).path == [] && yes(n)
    && Acting(T, input, Meaning(Run(T, input, yes, n))).action.DoReduce?
    && Trial(T, input, Meaning(Run(T, input, yes, n))) != []
  }

  /** YYVALID ends the trial: nothing stays saved, the choices made become the path, and the parse
      goes back to where the first of them was made. */
  lemma ValidCommits(g: Packed, A: Automaton, T: Tables, input: nat -> Lexeme, yes: nat -> bool, n: nat)
    requires TablesSound(g, A, T) && Shaped(T) && Commits(T, input, yes, n)
    ensures var c, trial := Run(T, input, yes, n + 1), Trial(T, input, Meaning(Run(T, input, yes, n)));
            && c.status.Running? && c.saves == [] && c.path != []
            && Meaning(c).path == trial && Meaning(c).here == trial[0].spot
    ensures var p, q := Meaning(Run(T, input, yes, n)), Meaning(Run(T, input, yes, n + 1));
            && (p.saves != [] ==> q.here == p.saves[0].spot)
            && (Decide(T, input, p.here).DoReduce? ==> q.path == p.saves)
  {
    hide TablesSound, Packed.WellFormed, Shaped, Acting, Trial, Meaning, Run;
    RoundMoves(g, A, T, input, yes, n);
    MeaningEnds(Run(T, input, yes, n + 1));
    TrialStarts(T, input, Meaning(Run(T, input, yes, n)));
  }

  lemma {:induction false} SameStart(T: Tables, input: nat -> Lexeme, yes: nat -> bool, yes': nat -> bool, n: nat)
    requires Shaped(T) && forall k: nat :: k < n ==> yes(k) == yes'(k)
    ensures Run(T, input, yes, n) == Run(T, input, yes', n)
  {
    if n > 0 {
      SameStart(T, input, yes, yes', n - 1);
    }
  }

  /** Anywhere else a call of YYVALID changes nothing. */
  lemma ValidElsewhere(g: Packed, A: Automaton, T: Tables, input: nat -> Lexeme, yes: nat -> bool, yes': nat -> bool,
                       n: nat)
    requires TablesSound(g, A, T) && Shaped(T) && forall k: nat :: k < n ==> yes(k) == yes'(k)
    requires !Commits(T, input, yes, n) && !Commits(T, input, yes', n)
    ensures Meaning(Run(T, input, yes, n + 1)) == Meaning(Run(T, input, yes', n + 1))
  {
    hide TablesSound, Packed.WellFormed, Shaped, Acting, Trial, Meaning, Run, PlainStep, PlainOK, QueueOK;
    TablesShaped(g, A, T);
    SameStart(T, input, yes, yes', n);
    var c := Run(T, input, yes, n);
    RunStep(g, A, T, input, yes, n);
    RunStep(g, A, T, input, yes', n);
    RunGood(g, A, T, input, yes, n);
    MeaningEnds(c);
    if !c.status.Running? {
      StoppedPlain(T, input, Meaning(c), yes(n));
      StoppedPlain(T, input, Meaning(c), yes'(n));
    } else if c.path != [] {
      OnPathNoSaves(g, A, T, input, Meaning(c));
      StepOutside(T, input, Meaning(c), yes(n), yes'(n));
    } else if yes(n) != yes'(n) {
      StepMoves(g, A, T, input, Meaning(c), yes(n));
      StepMoves(g, A, T, input, Meaning(c), yes'(n));
      SameMoves(g, A, T, input, Meaning(c), yes(n), yes'(n));
    }
  }

  lemma OnPathNoSaves(g: Packed, A: Automaton, T: Tables, input: nat -> Lexeme, p: Plain)
    requires g.WellFormed() && Shaped(T) && PlainOK(g, A, T, input, p) && p.path != []
    ensures p.saves == []
  {}

  lemma StepOutside(T: Tables, input: nat -> Lexeme, p: Plain, valid: bool, valid': bool)
    requires Shaped(T) && p.saves == [] && p.path != []
    ensures PlainStep(T, input, p, valid) == PlainStep(T, input, p, valid')
  {
    hide Shaped, Perform;
  }

  lemma SameMoves(g: Packed, A: Automaton, T: Tables, input: nat -> Lexeme, p: Plain, valid: bool, valid': bool)
    requires TablesSound(g, A, T) && PlainOK(g, A, T, input, p) && p.status.Running? && p.path == [] && Shaped(T)
    requires !Acting(T, input, p).action.DoReduce? || Trial(T, input, p) == []
    ensures PlainStep(T, input, p, valid) == PlainStep(T, input, p, valid')
  {
    hide TablesSound, Packed.WellFormed, Shaped, Acting, Trial, PlainStep, PlainOK, Perform;
    StepMoves(g, A, T, input, p, valid);
    StepMoves(g, A, T, input, p, valid');
  }

  /** After a call of YYVALID the choices are made again outside any trial, up to the reduction that
      called it, and nothing is saved on the way: there is no going back on them. */
  lemma CommitReplays(g: Packed, A: Automaton, T: Tables, input: nat -> Lexeme, yes: nat -> bool, n: nat)
    returns (m: nat)
    requires TablesSound(g, A, T) && Shaped(T) && Commits(T, input, yes, n)
    ensures m > n && Performs(T, input, Meaning(Run(T, input, yes, m)),
        Acting(T, input, Meaning(Run(T, input, yes, n))))
    ensures forall j: nat :: n < j <= m ==> Run(T, input, yes, j).status.Running? && Run(T, input, yes, j).saves == []
  {
    hide TablesSound, Packed.WellFormed, Shaped, Acting, Meaning, Run, Performs, Trial, Perform;
    ValidCommits(g, A, T, input, yes, n);
    m := ReplayEnds(g, A, T, input, yes, n);
  }

  /** An error outside any trial ends the parse. */
  lemma ErrorFails(g: Packed, A: Automaton, T: Tables, input: nat -> Lexeme, yes: nat -> bool, n: nat)
    requires TablesSound(g, A, T) && Shaped(T) && Run(T, input, yes, n).status.Running? &&
        Run(T, input, yes, n).saves == []
    requires Decide(T, input, Meaning(Run(T, input, yes, n)).here).Stuck?
    ensures Run(T, input, yes, n + 1).status.Failed?
  {
    hide TablesSound, Packed.WellFormed, Shaped, Meaning, Run, Decide;
    MeaningEnds(Run(T, input, yes, n));
    MeaningEnds(Run(T, input, yes, n + 1));
    RunStep(g, A, T, input, yes, n);
  }

  lemma PerformsNext(T: Tables, input: nat -> Lexeme, w: Plain, act: Act, valid: bool)
    requires Shaped(T) && Performs(T, input, w, act) && Perform(T, input, act.spot, act.action).Next?
    ensures PlainStep(T, input, w, valid) ==
        Plain(Running, Perform(T, input, act.spot, act.action).spot, [], [], w.ret)
  {}

  lemma {:induction false} SameOnwards(T: Tables, input: nat -> Lexeme, p: Plain, yes: nat -> bool, yes': nat -> bool,
                                       at: nat, n: nat)
    requires Shaped(T) && forall k: nat :: k >= at ==> yes(k) == yes'(k)
    ensures PlainRun(T, input, p, yes, at, n) == PlainRun(T, input, p, yes', at, n)
    decreases n
  {
    if n > 0 {
      SameOnwards(T, input, p, yes, yes', at, n - 1);
    }
  }

  /** From a spot outside any trial, no action calling YYVALID later, the parse fails exactly if that
      spot is refuted: whatever was chosen before is not tried otherwise. */
  lemma FailsFrom(g: Packed, A: Automaton, T: Tables, input: nat -> Lexeme, yes: nat -> bool, m: nat)
    requires TablesSound(g, A, T) && Shaped(T) && Run(T, input, yes, m).status.Running?
    requires Run(T, input, yes, m).saves == [] && Run(T, input, yes, m).path == []
    requires forall k: nat :: k >= m ==> !yes(k)
    ensures (exists l: nat :: Run(T, input, yes, l).status.Failed?) <==>
        Refuted(T, input, Meaning(Run(T, input, yes, m)).here)
  {
    hide TablesSound, Packed.WellFormed, Shaped, Meaning, Run, Refuted, PlainRun;
    var p := Meaning(Run(T, input, yes, m));
    if l: nat :| Run(T, input, yes, l).status.Failed? {
      FailedIsRefutedFrom(g, A, T, input, yes, m, l);
    }
    if Refuted(T, input, p.here) {
      var l := RefutedFailsFrom(g, A, T, input, yes, m);
    }
  }

  lemma FailedIsRefutedFrom(g: Packed, A: Automaton, T: Tables, input: nat -> Lexeme, yes: nat -> bool, m: nat, l: nat)
    requires TablesSound(g, A, T) && Shaped(T) && Run(T, input, yes, m).status.Running?
    requires Run(T, input, yes, m).saves == [] && Run(T, input, yes, m).path == []
    requires (forall k: nat :: k >= m ==> !yes(k)) && Run(T, input, yes, l).status.Failed?
    ensures Refuted(T, input, Meaning(Run(T, input, yes, m)).here)
  {
    hide TablesSound, Packed.WellFormed, Shaped, Meaning, Run, Refuted, PlainRun, RunOK, QueueOK;
    var p := Meaning(Run(T, input, yes, m));
    if l < m {
      RunEnded(T, input, yes, l, m);
    }
    var yes' := (k: nat) => k >= m && yes(k);
    RunGood(g, A, T, input, yes, m);
    MeaningEnds(Run(T, input, yes, m));
    SearchOn(g, A, T, input, p, yes', m, l - m);
    SameOnwards(T, input, p, yes, yes', m, l - m);
    RunMeans(g, A, T, input, yes, m, l - m);
    MeaningEnds(Run(T, input, yes, l));
    if i: nat :| PlainRun(T, input, p, yes', m, i).status.Accepted? {
      SameOnwards(T, input, p, yes, yes', m, i);
      RunMeans(g, A, T, input, yes, m, i);
      MeaningEnds(Run(T, input, yes, m + i));
      OneEnd(T, input, yes, l, m + i);
    }
  }

  /** A run ends in one way only. */
  lemma OneEnd(T: Tables, input: nat -> Lexeme, yes: nat -> bool, n: nat, m: nat)
    requires Shaped(T) && !Run(T, input, yes, n).status.Running? && !Run(T, input, yes, m).status.Running?
    ensures Run(T, input, yes, n) == Run(T, input, yes, m)
  {
    if n <= m {
      RunEnded(T, input, yes, n, m);
    } else {
      RunEnded(T, input, yes, m, n);
    }
  }

  lemma RefutedFailsFrom(g: Packed, A: Automaton, T: Tables, input: nat -> Lexeme, yes: nat -> bool, m: nat)
    returns (l: nat)
    requires TablesSound(g, A, T) && Shaped(T) && Run(T, input, yes, m).status.Running?
    requires Run(T, input, yes, m).saves == [] && Run(T, input, yes, m).path == []
    requires (forall k: nat :: k >= m ==> !yes(k)) && Refuted(T, input, Meaning(Run(T, input, yes, m)).here)
    ensures Run(T, input, yes, l).status.Failed?
  {
    hide TablesSound, Packed.WellFormed, Shaped, Meaning, Run, PlainRun, PlainOK, QueueOK, Refutes;
    var p := Meaning(Run(T, input, yes, m));
    var R: Refutation :| Refutes(T, input, p.here, R);
    var yes' := (k: nat) => k >= m && yes(k);
    RunGood(g, A, T, input, yes, m);
    MeaningEnds(Run(T, input, yes, m));
    var i, k := RefutedRuns(g, A, T, input, p, R, yes', m);
    SameOnwards(T, input, p, yes, yes', m, i);
    RunMeans(g, A, T, input, yes, m, i);
    l := m + i;
    MeaningEnds(Run(T, input, yes, l));
  }

  /** A parse committed by YYVALID replays its choices with nothing saved; if it calls YYVALID no more
      after that, it fails exactly if what comes after the reduction that called it is refuted, whatever
      other choices there were before. */
  lemma CommittedFails(g: Packed, A: Automaton, T: Tables, input: nat -> Lexeme, yes: nat -> bool, n: nat, k0: Spot)
    returns (m: nat)
    requires TablesSound(g, A, T) && Shaped(T) && Commits(T, input, yes, n)
    requires var act := Acting(T, input, Meaning(Run(T, input, yes, n)));
             Perform(T, input, act.spot, act.action) == Next(k0)
    ensures m > n
    ensures forall j: nat :: n < j <= m ==> Run(T, input, yes, j).status.Running? && Run(T, input, yes, j).saves == []
    ensures (forall k: nat :: k > m ==> !yes(k)) ==>
        ((exists l: nat :: Run(T, input, yes, l).status.Failed?) <==> Refuted(T, input, k0))
  {
    hide TablesSound, Packed.WellFormed, Shaped, Meaning, Run, PlainStep, Performs, Perform, Acting, Refuted, Trial;
    var act := Acting(T, input, Meaning(Run(T, input, yes, n)));
    m := CommitReplays(g, A, T, input, yes, n);
    RunStep(g, A, T, input, yes, m);
    PerformsNext(T, input, Meaning(Run(T, input, yes, m)), act, yes(m));
    MeaningEnds(Run(T, input, yes, m + 1));
    if forall k: nat :: k > m ==> !yes(k) {
      FailsFrom(g, A, T, input, yes, m + 1);
    }
  }

  /** Backtracking passes over refuted choices only. */
  lemma {:induction false} ResumedTried(g: Packed, A: Automaton, T: Tables, input: nat -> Lexeme, p: Plain)
    requires TablesSound(g, A, T) && TurnsOK(g, A, T, input, p) && AllTried(T, input, p.saves)
    requires LastRefuted(T, input, p.saves)
    ensures AllTried(T, input, ResumedTrial(T, p))
    decreases |p.saves|
  {
    hide TablesSound, TurnOK, Leads, Tried, Shaped, Packed.WellFormed, ChoiceRefuted, Refuted, ComesTo;
    TablesShaped(g, A, T);
    if p.saves != [] {
      var n := |p.saves| - 1;
      var t := p.saves[n];
      ChoiceTried(g, A, T, input, t);
      if T.ctable[NextTry(p)] < 0 {
        GiveUpOK(g, A, T, input, p);
        LinkedPrefix(T, input, p.saves, n);
        LastIsRefuted(T, input, p.saves[..n], t.spot);
        ResumedTried(g, A, T, input, GivenUp(p));
      } else {
        assert t.(ctry := t.ctry + 1) == Turn(t.spot, t.ctry + 1);
      }
    }
  }

  lemma TrialTried(g: Packed, A: Automaton, T: Tables, input: nat -> Lexeme, p: Plain)
    requires TablesSound(g, A, T) && PlainOK(g, A, T, input, p) && AllTried(T, input, p.saves)
    ensures Shaped(T) && AllTried(T, input, Trial(T, input, p))
  {
    hide TablesSound, TurnOK, Leads, Shaped, Packed.WellFormed, BranchRefuted, ComesTo, Decide, Linked;
    TablesShaped(g, A, T);
    match Decide(T, input, p.here)
    case Fork(e) =>
      assert Tried(T, input, Turn(p.here, First(T, e)));
    case Stuck =>
      RefutedStuck(T, input, p.here);
      LastIsRefuted(T, input, p.saves, p.here);
      ResumedTried(g, A, T, input, p);
    case _ =>
  }

  /** Up to the first success of a trial, the choices of the trial are the first that are not refuted. */
  lemma {:induction false} SearchFirst(g: Packed, A: Automaton, T: Tables, input: nat -> Lexeme, yes: nat -> bool,
                                       n: nat)
    requires TablesSound(g, A, T) && Shaped(T)
    requires (forall k: nat :: k < n ==> !yes(k)) && forall k: nat :: k <= n ==> Run(T, input, yes, k).path == []
    ensures Outcome(T, input, Meaning(Run(T, input, yes, n)), Origin())
  {
    hide TablesSound, RunOK, Shaped, Packed.WellFormed, QueueOK, Meaning, PlainStep, Outcome, Step;
    TablesShaped(g, A, T);
    if n == 0 {
      StartMeans();
      MeaningEnds(Start());
      FromOutside(T, input, Meaning(Start()));
    } else {
      SearchFirst(g, A, T, input, yes, n - 1);
      RunGood(g, A, T, input, yes, n - 1);
      MeaningEnds(Run(T, input, yes, n - 1));
      RunStep(g, A, T, input, yes, n - 1);
      assert Run(T, input, yes, n - 1).path == [];
      SearchStep(g, A, T, input, Meaning(Run(T, input, yes, n - 1)), Origin());
    }
  }

  lemma SearchStep(g: Packed, A: Automaton, T: Tables, input: nat -> Lexeme, p: Plain, k0: Spot)
    requires TablesSound(g, A, T) && Shaped(T) && g.WellFormed() && RunOK(g, A, T, input, p) && p.path == []
    requires Outcome(T, input, p, k0)
    ensures Outcome(T, input, PlainStep(T, input, p, false), k0)
  {
    hide TablesSound, Shaped, Packed.WellFormed, PlainStep, Searching, Refuted, PlainOK;
    if p.status.Running? {
      StepSearch(g, A, T, input, p, k0);
    } else {
      StoppedPlain(T, input, p, false);
    }
  }

  lemma RunningOK(g: Packed, A: Automaton, T: Tables, input: nat -> Lexeme, p: Plain)
    requires g.WellFormed() && Shaped(T) && RunOK(g, A, T, input, p) && p.status.Running?
    ensures PlainOK(g, A, T, input, p)
  {}

  /** When the first trial succeeds, by YYVALID or at the end of the input, all alternatives passed over
      on the way are refuted: the path holds, at each conflict, the first that is not. */
  lemma FirstWins(g: Packed, A: Automaton, T: Tables, input: nat -> Lexeme, yes: nat -> bool, n: nat)
    requires TablesSound(g, A, T) && Shaped(T) && Run(T, input, yes, n).status.Running?
    requires (forall k: nat :: k < n ==> !yes(k)) && forall k: nat :: k <= n ==> Run(T, input, yes, k).path == []
    requires Run(T, input, yes, n + 1).path != []
    ensures AllTried(T, input, Meaning(Run(T, input, yes, n + 1)).path)
  {
    hide TablesSound, RunOK, Shaped, Packed.WellFormed, QueueOK, Meaning, Run, Acting, Trial, AllTried, PlainOK;
    SearchFirst(g, A, T, input, yes, n);
    var p := Meaning(Run(T, input, yes, n));
    RunGood(g, A, T, input, yes, n);
    MeaningEnds(Run(T, input, yes, n));
    MeaningEnds(Run(T, input, yes, n + 1));
    RoundMoves(g, A, T, input, yes, n);
    TablesShaped(g, A, T);
    RunningOK(g, A, T, input, p);
    TrialTried(g, A, T, input, p);
  }
}

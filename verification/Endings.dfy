/** skeleton.c, whether a run comes to an end. Where two states circle on top of its stack a run goes
    round for ever; on an input with an end token a run without conflicts ends otherwise, and a search
    without YYVALID ends where no alternatives circle either. */
module Endings {
  import opened Grammar
  import opened LR0
  import opened Paths
  import opened GotoMap
  import opened ConflictTable
  import opened ActionRows
  import opened Output
  import opened Machine
  import opened MachineStacks
  import opened Trials
  import opened LexemeQueue
  import opened Skeleton
  import opened Replay
  import opened Search
  import opened Completeness
  import opened Reductions

  predicate Paired(st: Stack) {
    |st.ss| == |st.vals| + 1
  }

  ghost function KeyAt(input: nat -> Lexeme, k: Spot): nat {
    Norm(input(k.pos).code)
  }

  /** Forks are not cut short: no action calls YYVALID, or there are none. */
  ghost predicate Undisturbed(T: Tables, p: Plain, yes: nat -> bool)
    requires Shaped(T)
  {
    p.path == [] && (NeverValid(yes) || (NoForks(T) && p.saves == []))
  }

  /** The rule tried first is what the tables decide, or the first alternative of a conflict. */
  lemma TriedIsDecided(T: Tables, input: nat -> Lexeme, k: Spot, y: int)
    requires Shaped(T) && k.stack.ss != [] && RuleTried(T, Top(k.stack), KeyAt(input, k)) == Some(y)
    ensures match Decide(T, input, k)
            case Fork(e) => 0 <= e < |T.ctable| && T.ctable[e] == -1 && Alternative(T, e, e + 1) == DoReduce(y)
            case a => a == DoReduce(y)
  {}

  lemma UncoveredPerforms(T: Tables, input: nat -> Lexeme, k: Spot, t: seq<nat>, y: int)
    requires Shaped(T) && Paired(k.stack) && Uncovered(T, k.stack.ss, KeyAt(input, k), y) == Some(t)
    ensures var m := Perform(T, input, k, DoReduce(y));
            m.Next? && Paired(m.spot.stack) && m.spot.pos == k.pos && m.spot.stack.ss == t
  {
    hide Tables.GotoTo;
  }

  /** What is tried first on the state stack is the next step of the parser. */
  lemma TurnedStep(T: Tables, input: nat -> Lexeme, p: Plain, yes: nat -> bool, valid: bool, t: seq<nat>)
    requires Shaped(T) && p.status.Running? && Paired(p.here.stack) && Undisturbed(T, p, yes)
    requires (NeverValid(yes) ==> !valid) && Reduces(T, false, KeyAt(input, p.here), p.here.stack.ss, t)
    ensures var q := PlainStep(T, input, p, valid);
            && q.status.Running? && Paired(q.here.stack) && Undisturbed(T, q, yes) && q.here.pos == p.here.pos
            && q.here.stack.ss == t
  {
    hide RuleTried, Uncovered, Perform, Decide, Alternative, Paired, KeyAt, Shaped, NeverValid, NoForks;
    var y :| ReducesBy(T, false, KeyAt(input, p.here), p.here.stack.ss, t, y);
    TriedIsDecided(T, input, p.here, y);
    UncoveredPerforms(T, input, p.here, t, y);
    if NoForks(T) {
      NoForkHere(T, input, p.here);
    }
  }

  lemma NoForkHere(T: Tables, input: nat -> Lexeme, k: Spot)
    requires Shaped(T) && NoForks(T)
    ensures !Decide(T, input, k).Fork?
  {
    assert Peek(T, T.cindex, Top(k.stack), KeyAt(input, k)).None?;
  }

  lemma {:induction false} TurnsRun(T: Tables, input: nat -> Lexeme, p: Plain, yes: nat -> bool, at: nat,
                                    f: nat -> seq<nat>, m: nat)
    requires Shaped(T) && p.status.Running? && Paired(p.here.stack) && Undisturbed(T, p, yes)
    requires f(0) == p.here.stack.ss && Endless(T, false, KeyAt(input, p.here), f)
    ensures var q := PlainRun(T, input, p, yes, at, m);
            && q.status.Running? && Paired(q.here.stack) && Undisturbed(T, q, yes) && q.here.pos == p.here.pos
            && q.here.stack.ss == f(m)
    decreases m
  {
    hide PlainStep, Reduces, Shaped, NoForks;
    if m > 0 {
      TurnsRun(T, input, p, yes, at, f, m - 1);
      assert Turns(T, false, KeyAt(input, p.here), f, m - 1);
      TurnedStep(T, input, PlainRun(T, input, p, yes, at, m - 1), yes, yes(at + m - 1), f(m));
    }
  }

  /** The two states on top circle on the next token. */
  ghost predicate Circling(T: Tables, any: bool, input: nat -> Lexeme, k: Spot)
    requires Shaped(T)
  {
    var ss := k.stack.ss;
    |ss| >= 2 && Circles(T, any, ss[|ss| - 2], ss[|ss| - 1], KeyAt(input, k))
  }

  /** A run that stands where states circle. */
  ghost predicate Caught(T: Tables, input: nat -> Lexeme, c: Config)
    requires Shaped(T)
  {
    c.status.Running? && Circling(T, false, input, Spot(c.stack, Taken(c)))
  }

  /** The reductions that a caught configuration goes on with. */
  lemma CircleOf(T: Tables, input: nat -> Lexeme, k: Spot) returns (f: nat -> seq<nat>)
    requires Shaped(T) && Circling(T, false, input, k)
    ensures f(0) == k.stack.ss && Endless(T, false, KeyAt(input, k), f)
  {
    hide Shaped, Circles, Endless;
    var ss, i := k.stack.ss, |k.stack.ss| - 2;
    assert ss == ss[..i] + [ss[i], ss[i + 1]];
    f := CircleIsEndless(T, false, ss[..i], ss[i], ss[i + 1], KeyAt(input, k));
  }

  /** A run that comes to circling states never ends, unless YYVALID cuts its trials short. */
  lemma CaughtNeverEnds(g: Packed, A: Automaton, T: Tables, input: nat -> Lexeme, yes: nat -> bool, n: nat, m: nat)
    requires TablesSound(g, A, T) && Shaped(T) && Caught(T, input, Run(T, input, yes, n))
    requires Undisturbed(T, Meaning(Run(T, input, yes, n)), yes)
    ensures Run(T, input, yes, m).status.Running?
  {
    hide TablesSound, Run, Shaped, RunOK, QueueOK, Endless, Circling, Undisturbed, Meaning, PlainRun;
    if m <= n {
      if !Run(T, input, yes, m).status.Running? {
        RunEnded(T, input, yes, m, n);
      }
    } else {
      var p := Meaning(Run(T, input, yes, n));
      RunGood(g, A, T, input, yes, n);
      RunningPaired(g, A, T, input, Run(T, input, yes, n));
      var f := CircleOf(T, input, p.here);
      TurnsRun(T, input, p, yes, n, f, m - n);
      RunMeans(g, A, T, input, yes, n, m - n);
      MeaningEnds(Run(T, input, yes, m));
    }
  }

  lemma RunningPaired(g: Packed, A: Automaton, T: Tables, input: nat -> Lexeme, c: Config)
    requires Good(g, A, T, input, c) && c.status.Running?
    ensures Paired(c.stack) && Meaning(c).here == Spot(c.stack, Taken(c)) && Meaning(c).status.Running?
    ensures SpotOK(g, A, input, Meaning(c).here)
  {}

  ghost predicate MayStepBy(T: Tables, input: nat -> Lexeme, k: Spot, l: Spot, a: Action)
    requires Shaped(T)
  {
    MayDo(T, input, k, a) && Perform(T, input, k, a) == Next(l)
  }

  /** Some action offered at k leads to l. */
  ghost predicate MayStep(T: Tables, input: nat -> Lexeme, k: Spot, l: Spot)
    requires Shaped(T)
  {
    exists a: Action :: MayStepBy(T, input, k, l, a)
  }

  /** What is offered is sound. */
  lemma OfferIsSound(g: Packed, A: Automaton, T: Tables, input: nat -> Lexeme, k: Spot, a: Action)
    requires TablesSound(g, A, T) && Shaped(T) && g.WellFormed() && SpotOK(g, A, input, k) && MayDo(T, input, k, a)
    ensures ActionSound(g, A, input, k, a)
  {
    hide Packed.WellFormed, Canonical, StateSound, SpotOK, Decode, Alternative;
    DecideSound(g, A, T, input, k);
    if Decide(T, input, k).Fork? {
      var e := Decide(T, input, k).e;
      var j: nat :| IsAlternative(T, e, j, a);
      ChoiceIsSound(g, A, T, input, k, j);
    }
  }

  lemma ChoiceIsSound(g: Packed, A: Automaton, T: Tables, input: nat -> Lexeme, k: Spot, j: nat)
    requires TablesSound(g, A, T) && Shaped(T) && g.WellFormed() && SpotOK(g, A, input, k)
    requires Decide(T, input, k).Fork? && j < Choices(T, input, k)
    ensures var e := Decide(T, input, k).e; ActionSound(g, A, input, k, Alternative(T, e, First(T, e) + j))
  {
    hide Packed.WellFormed, Shaped, TablesSound, StateSound, Decode, SpotOK;
    var e := Decide(T, input, k).e;
    ChoiceListed(g, A, T, input, k, j);
    var q, key := Top(k.stack), Norm(input(k.pos).code);
    var values, reduceFirst, i: nat :| Trying(g, A, T, q, key, e, First(T, e) + j, values, reduceFirst, i);
    TryingSound(g, A, T, input, k, e, First(T, e) + j, values, reduceFirst, i);
  }

  /** The end token is never shifted. */
  lemma EndStays(g: Packed, A: Automaton, input: nat -> Lexeme, k: Spot, a: Action)
    requires NaturalCodes(g) && Canonical(g, A) && ActionSound(g, A, input, k, a) && input(k.pos).code <= 0
    ensures a.DoReduce?
  {
    hide Canonical;
    if a.DoShift? {
      var t: nat :| TokenWith(g, t, 0) && Goto(A, Top(k.stack), t, a.n);
      CodeIsUnique(g, 0, t, 0);
      GotoItems(g, A, Top(k.stack), t, a.n);
    }
  }

  /** An action offered shifts a token that is not the end, or is a reduction on the state stack. */
  lemma StepSpot(g: Packed, A: Automaton, T: Tables, input: nat -> Lexeme, k: Spot, l: Spot)
    requires TablesSound(g, A, T) && Shaped(T) && g.WellFormed() && SpotOK(g, A, input, k) && MayStep(T, input, k, l)
    ensures SpotOK(g, A, input, l) && (l.pos == k.pos + 1 ==> input(k.pos).code > 0)
    ensures l.pos == k.pos + 1 || (l.pos == k.pos && Reduces(T, true, KeyAt(input, k), k.stack.ss, l.stack.ss))
  {
    hide Packed.WellFormed, Canonical, StateSound, NaturalCodes, ActionSound, Offers;
    var a :| MayStepBy(T, input, k, l, a);
    OfferIsSound(g, A, T, input, k, a);
    PerformOK(g, A, T, input, k, a);
    if a.DoShift? {
      if input(k.pos).code <= 0 {
        EndStays(g, A, input, k, a);
      }
    } else {
      ReductionReduces(T, input, k, l, a.y);
    }
  }

  lemma ReductionReduces(T: Tables, input: nat -> Lexeme, k: Spot, l: Spot, y: int)
    requires Shaped(T) && MayDo(T, input, k, DoReduce(y)) && Perform(T, input, k, DoReduce(y)) == Next(l)
    ensures l.pos == k.pos && Reduces(T, true, KeyAt(input, k), k.stack.ss, l.stack.ss)
  {
    hide Offers;
    assert ReducesBy(T, true, KeyAt(input, k), k.stack.ss, l.stack.ss, y);
  }

  ghost predicate StepsAt(T: Tables, input: nat -> Lexeme, h: nat -> Spot, n: nat)
    requires Shaped(T)
  {
    MayStep(T, input, h(n), h(n + 1))
  }

  /** h goes on for ever by actions offered. */
  ghost predicate Onwards(T: Tables, input: nat -> Lexeme, h: nat -> Spot)
    requires Shaped(T)
  {
    forall n: nat :: StepsAt(T, input, h, n)
  }

  lemma {:induction false} OnwardsSpot(g: Packed, A: Automaton, T: Tables, input: nat -> Lexeme, h: nat -> Spot, n: nat,
                                       end: nat)
    requires TablesSound(g, A, T) && Shaped(T) && g.WellFormed() && Onwards(T, input, h) && SpotOK(g, A, input, h(0))
    requires h(0).pos <= end && input(end).code <= 0
    ensures SpotOK(g, A, input, h(n)) && h(n).pos <= h(n + 1).pos <= end
    ensures h(n + 1).pos == h(n).pos ==> Reduces(T, true, KeyAt(input, h(n)), h(n).stack.ss, h(n + 1).stack.ss)
  {
    hide TablesSound, Shaped, Packed.WellFormed, SpotOK, MayStep, Reduces;
    assert StepsAt(T, input, h, n);
    if n > 0 {
      OnwardsSpot(g, A, T, input, h, n - 1, end);
      assert StepsAt(T, input, h, n - 1);
      StepSpot(g, A, T, input, h(n - 1), h(n));
    }
    StepSpot(g, A, T, input, h(n), h(n + 1));
  }

  ghost predicate Rests(h: nat -> Spot, n: nat) {
    forall m: nat :: n <= m ==> h(m).pos == h(n).pos
  }

  lemma {:induction false} Ahead(h: nat -> Spot, n: nat, m: nat)
    requires (forall i: nat, j: nat :: j == i + 1 ==> h(i).pos <= h(j).pos) && n <= m
    ensures h(n).pos <= h(m).pos
    decreases m
  {
    if n < m {
      Ahead(h, n, m - 1);
    }
  }

  /** A place that never moves back nor past the end comes to rest. */
  lemma {:induction false} ComesToRest(h: nat -> Spot, n0: nat, end: nat) returns (n: nat)
    requires (forall i: nat, j: nat :: j == i + 1 ==> h(i).pos <= h(j).pos) && forall i: nat :: h(i).pos <= end
    ensures Rests(h, n)
    decreases end - h(n0).pos
  {
    if Rests(h, n0) {
      n := n0;
    } else {
      var m: nat :| n0 <= m && h(m).pos != h(n0).pos;
      Ahead(h, n0, m);
      n := ComesToRest(h, m, end);
    }
  }

  /** Actions without end, on an input with an end token, come to a transition that circles. */
  lemma OnwardsCircles(g: Packed, A: Automaton, T: Tables, input: nat -> Lexeme, h: nat -> Spot, end: nat)
    returns (n: nat)
    requires TablesSound(g, A, T) && Shaped(T) && g.WellFormed() && Onwards(T, input, h) && SpotOK(g, A, input, h(0))
    requires h(0).pos <= end && input(end).code <= 0
    ensures Circling(T, true, input, h(n)) && !NoCircles(A, T, true)
  {
    hide TablesSound, Shaped, Packed.WellFormed, SpotOK, Onwards, Reduces, Circles, Goto;
    forall i: nat, j: nat | j == i + 1
      ensures h(i).pos <= h(j).pos
    {
      OnwardsSpot(g, A, T, input, h, i, end);
    }
    forall i: nat
      ensures h(i).pos <= end
    {
      OnwardsSpot(g, A, T, input, h, i, end);
    }
    var n0 := ComesToRest(h, 0, end);
    var key := KeyAt(input, h(n0));
    var f: nat -> seq<nat> := (m: nat) => h(n0 + m).stack.ss;
    forall m: nat
      ensures Turns(T, true, key, f, m)
    {
      OnwardsSpot(g, A, T, input, h, n0 + m, end);
      assert h(n0 + m).pos == h(n0).pos == h(n0 + m + 1).pos;
    }
    OnwardsSpot(g, A, T, input, h, n0, end);
    SpotOnPath(g, A, input, h(n0));
    var m, X := CircleOnPath(g, A, T, true, key, f);
    n := n0 + m;
    assert h(n).pos == h(n0).pos;
  }

  lemma SpotOnPath(g: Packed, A: Automaton, input: nat -> Lexeme, k: Spot)
    requires g.WellFormed() && SpotOK(g, A, input, k)
    ensures Paired(k.stack) && IsStatePath(A, k.stack.ss) && k.stack.ss[0] == 0
  {}

  /** Without conflicts what may be done is what is done first. */
  lemma OnlyFirst(T: Tables, key: nat, s: seq<nat>, t: seq<nat>)
    requires Shaped(T) && NoForks(T) && Reduces(T, true, key, s, t)
    ensures Reduces(T, false, key, s, t)
  {
    var y :| ReducesBy(T, true, key, s, t, y);
    assert Peek(T, T.cindex, s[|s| - 1], key).None?;
    assert ReducesBy(T, false, key, s, t, y);
  }

  lemma CirclesFirst(T: Tables, p: nat, q: nat, key: nat)
    requires Shaped(T) && NoForks(T) && Circles(T, true, p, q, key)
    ensures Circles(T, false, p, q, key)
  {
    hide Shaped, NoForks, Reduces;
    var c: seq<seq<nat>>, b: seq<nat> :| CirclesBy(T, true, p, q, key, c, b);
    forall i, j | 0 <= i < j < |c| && j == i + 1
      ensures Reduces(T, false, key, c[i], c[j])
    {
      OnlyFirst(T, key, c[i], c[j]);
    }
    assert CirclesBy(T, false, p, q, key, c, b);
  }

  /** The configuration after n rounds, as the parser without a queue sees it. */
  ghost function Stage(T: Tables, input: nat -> Lexeme, yes: nat -> bool, n: nat): Plain
    requires Shaped(T)
  {
    PlainRun(T, input, Meaning(Start()), yes, 0, n)
  }

  lemma RunStage(g: Packed, A: Automaton, T: Tables, input: nat -> Lexeme, yes: nat -> bool, n: nat)
    requires TablesSound(g, A, T) && Shaped(T) && g.WellFormed()
    ensures Stage(T, input, yes, n) == Meaning(Run(T, input, yes, n))
    ensures Stage(T, input, yes, n).status == Run(T, input, yes, n).status &&
        RunOK(g, A, T, input, Stage(T, input, yes, n))
  {
    hide TablesSound, Shaped, QueueOK, RunOK, Packed.WellFormed, Meaning, Step;
    RunMeans(g, A, T, input, yes, 0, n);
    assert Run(T, input, yes, 0) == Start();
    RunGood(g, A, T, input, yes, n);
    MeaningEnds(Run(T, input, yes, n));
  }

  /** One round of a parser without conflicts. */
  lemma QuietRound(T: Tables, input: nat -> Lexeme, p: Plain, valid: bool)
    requires Shaped(T) && NoForks(T) && p.status.Running? && p.saves == [] && p.path == [] &&
        PlainStep(T, input, p, valid).status.Running?
    ensures var q := PlainStep(T, input, p, valid); q.saves == [] && q.path == [] && MayStep(T, input, p.here, q.here)
  {
    assert Peek(T, T.cindex, Top(p.here.stack), Norm(input(p.here.pos).code)).None?;
    assert MayStepBy(T, input, p.here, PlainStep(T, input, p, valid).here, Decide(T, input, p.here));
  }

  /** Without conflicts there are no trials, and each round is an action. */
  lemma {:induction false} QuietStage(T: Tables, input: nat -> Lexeme, yes: nat -> bool, n: nat)
    requires Shaped(T) && NoForks(T) && Stage(T, input, yes, n).status.Running?
    ensures Stage(T, input, yes, n).saves == [] && Stage(T, input, yes, n).path == []
    ensures n > 0 ==> MayStep(T, input, Stage(T, input, yes, n - 1).here, Stage(T, input, yes, n).here)
  {
    hide PlainStep, Shaped, NoForks, MayStep;
    if n == 0 {
      StartMeans();
    } else {
      var p := Stage(T, input, yes, n - 1);
      assert 0 + n - 1 == n - 1;
      if !p.status.Running? {
        StoppedPlain(T, input, p, yes(n - 1));
      }
      QuietStage(T, input, yes, n - 1);
      QuietRound(T, input, p, yes(n - 1));
    }
  }

  lemma OriginOK(g: Packed, A: Automaton, T: Tables, input: nat -> Lexeme)
    requires TablesSound(g, A, T) && Shaped(T) && g.WellFormed()
    ensures SpotOK(g, A, input, Origin()) && Meaning(Start()).here == Origin() &&
        PlainOK(g, A, T, input, Meaning(Start()))
  {
    StartGood(g, A, T, input);
    StartMeans();
  }

  ghost predicate Ends(T: Tables, input: nat -> Lexeme, yes: nat -> bool)
    requires Shaped(T)
  {
    exists n: nat :: !Run(T, input, yes, n).status.Running?
  }

  /** A run without conflicts that goes on for ever, on an input with an end token, is caught. */
  lemma EndlessRunCaught(g: Packed, A: Automaton, T: Tables, input: nat -> Lexeme, yes: nat -> bool, end: nat)
    returns (n: nat)
    requires TablesSound(g, A, T) && Shaped(T) && NoForks(T) && g.WellFormed() && !Ends(T, input, yes) &&
        input(end).code <= 0
    ensures Caught(T, input, Run(T, input, yes, n)) && !NoCircles(A, T, true)
  {
    hide TablesSound, Shaped, NoForks, Packed.WellFormed, MayStep, Circles, Meaning, Run, PlainRun, Start, NoCircles;
    OriginOK(g, A, T, input);
    assert Stage(T, input, yes, 0).here == Origin() by {
      RunStage(g, A, T, input, yes, 0);
      StageStarts(T, input, yes);
    }
    var h: nat -> Spot := (n: nat) => Stage(T, input, yes, n).here;
    forall n: nat
      ensures StepsAt(T, input, h, n)
    {
      RunStage(g, A, T, input, yes, n + 1);
      QuietStage(T, input, yes, n + 1);
    }
    n := OnwardsCircles(g, A, T, input, h, end);
    RunStage(g, A, T, input, yes, n);
    RunGood(g, A, T, input, yes, n);
    var c := Run(T, input, yes, n);
    RunningPaired(g, A, T, input, c);
    var ss := c.stack.ss;
    CirclesFirst(T, ss[|ss| - 2], ss[|ss| - 1], KeyAt(input, h(n)));
  }

  lemma StageStarts(T: Tables, input: nat -> Lexeme, yes: nat -> bool)
    requires Shaped(T)
    ensures Stage(T, input, yes, 0) == Meaning(Start())
  {}

  /** Without conflicts YYVALID changes nothing. */
  lemma CaughtForever(g: Packed, A: Automaton, T: Tables, input: nat -> Lexeme, yes: nat -> bool, n: nat, m: nat)
    requires TablesSound(g, A, T) && Shaped(T) && NoForks(T) && g.WellFormed() &&
        Caught(T, input, Run(T, input, yes, n))
    ensures Run(T, input, yes, m).status.Running?
  {
    hide TablesSound, Shaped, NoForks, Packed.WellFormed, Run, Meaning, Circles;
    RunStage(g, A, T, input, yes, n);
    QuietStage(T, input, yes, n);
    CaughtNeverEnds(g, A, T, input, yes, n, m);
  }

  /** A parser without conflicts comes to an end, on an input with an end token, exactly if it never
      comes to two states that circle. */
  lemma EndsExactly(g: Packed, A: Automaton, T: Tables, input: nat -> Lexeme, yes: nat -> bool, end: nat)
    requires TablesSound(g, A, T) && Shaped(T) && NoForks(T) && g.WellFormed() && input(end).code <= 0
    ensures Ends(T, input, yes) <==> !exists n: nat :: Caught(T, input, Run(T, input, yes, n))
  {
    hide TablesSound, Shaped, NoForks, Packed.WellFormed, Caught, Run, Stage;
    if n: nat :| Caught(T, input, Run(T, input, yes, n)) {
      forall m: nat
        ensures Run(T, input, yes, m).status.Running?
      {
        CaughtForever(g, A, T, input, yes, n, m);
      }
    }
    if !Ends(T, input, yes) {
      var n := EndlessRunCaught(g, A, T, input, yes, end);
    }
  }

  /** Where no transition circles, a run without conflicts comes to an end. */
  lemma EndsWithoutCircles(g: Packed, A: Automaton, T: Tables, input: nat -> Lexeme, yes: nat -> bool, end: nat)
    requires TablesSound(g, A, T) && Shaped(T) && NoForks(T) && g.WellFormed() && NoCircles(A, T, true) &&
        input(end).code <= 0
    ensures Ends(T, input, yes)
  {
    hide TablesSound, Shaped, NoForks, Packed.WellFormed, NoCircles, Run, Caught;
    if !Ends(T, input, yes) {
      var n := EndlessRunCaught(g, A, T, input, yes, end);
    }
  }

  /** Where no transition circles, the parser of a grammar without conflicts is a decision procedure:
      it comes to an end on every input with an end token, and has then accepted exactly the sentences. */
  lemma DecidesAndEnds(g: Packed, A: Automaton, gs: Gotos, nullable: seq<bool>, T: Tables, input: nat -> Lexeme,
                       yes: nat -> bool, end: nat) returns (n: nat)
    requires Obeys(g, A, gs, nullable, T) && Shaped(T) && NoForks(T) && g.WellFormed() && NoCircles(A, T, true) &&
        input(end).code <= 0
    ensures !Run(T, input, yes, n).status.Running?
    ensures Run(T, input, yes, n).status.Accepted? <==> exists k: nat :: IsSentence(g, input, k)
  {
    hide Obeys, Shaped, NoForks, Packed.WellFormed, Run, IsSentence, NoCircles;
    ObeysSound(g, A, gs, nullable, T);
    EndsWithoutCircles(g, A, T, input, yes, end);
    n :| !Run(T, input, yes, n).status.Running?;
    Decides(g, A, gs, nullable, T, input, yes);
    if m: nat :| Run(T, input, yes, m).status.Accepted? {
      if m < n {
        RunEnded(T, input, yes, m, n);
      } else {
        RunEnded(T, input, yes, n, m);
      }
    }
  }
}

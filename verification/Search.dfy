/** skeleton.c, the search of the generated parser: when no action calls YYVALID, a run fails exactly
    when every sequence of alternatives, from the first conflict on, ends in an error. */
module Search {
  import opened Grammar
  import opened LR0
  import opened ConflictTable
  import opened Output
  import opened Machine
  import opened MachineStacks
  import opened Trials
  import opened LexemeQueue
  import opened Skeleton
  import opened Replay

  /** Why nothing can come of a spot: n steps without a choice lead to spot, where there is an error,
      or a conflict of which every alternative is refuted in turn. */
  datatype Refutation = Dead(n: nat, spot: Spot) | Split(n: nat, spot: Spot, branches: seq<Refutation>)

  /** The place of the first alternative of the list at e. */
  function First(T: Tables, e: int): int {
    if 0 <= e < |T.ctable| && T.ctable[e] == -1 then e + 1 else e
  }

  /** What alternative j of the conflict at k leads to. */
  ghost function Branch(T: Tables, input: nat -> Lexeme, k: Spot, j: nat): Move
    requires Shaped(T) && Decide(T, input, k).Fork?
  {
    var e := Decide(T, input, k).e;
    Perform(T, input, k, Alternative(T, e, First(T, e) + j))
  }

  /** The number of alternatives in conflict at k. */
  ghost function Choices(T: Tables, input: nat -> Lexeme, k: Spot): nat
    requires Shaped(T) && Decide(T, input, k).Fork?
  {
    var e := Decide(T, input, k).e;
    if e < 0 then 0 else |Decode(T.ctable, e)|
  }

  ghost predicate Refutes(T: Tables, input: nat -> Lexeme, k: Spot, R: Refutation)
    requires Shaped(T)
    decreases R
  {
    && LeadsIn(T, input, k, R.spot, R.n)
    && match R
       case Dead(_, s) => Decide(T, input, s).Stuck?
       case Split(_, s, branches) =>
         && Decide(T, input, s).Fork? && |branches| == Choices(T, input, s)
         && forall j :: 0 <= j < |branches| ==>
             Branch(T, input, s, j).Next? && Refutes(T, input, Branch(T, input, s, j).spot, branches[j])
  }

  ghost predicate Refuted(T: Tables, input: nat -> Lexeme, k: Spot)
    requires Shaped(T)
  {
    exists R: Refutation :: Refutes(T, input, k, R)
  }

  ghost predicate BranchRefuted(T: Tables, input: nat -> Lexeme, k: Spot, j: nat)
    requires Shaped(T) && Decide(T, input, k).Fork?
  {
    Branch(T, input, k, j).Next? && Refuted(T, input, Branch(T, input, k, j).spot)
  }

  lemma {:induction false} LeadsInSum(T: Tables, input: nat -> Lexeme, k: Spot, l: Spot, m: Spot, a: nat, b: nat)
    requires Shaped(T) && LeadsIn(T, input, k, l, a) && LeadsIn(T, input, l, m, b)
    ensures LeadsIn(T, input, k, m, a + b)
    decreases a
  {
    if a > 0 {
      LeadsInSum(T, input, Onward(T, input, k).spot, l, m, a - 1, b);
    }
  }

  /** What leads without a choice to a refuted spot is refuted. */
  lemma RefutedBack(T: Tables, input: nat -> Lexeme, k: Spot, l: Spot)
    requires Shaped(T) && Leads(T, input, k, l) && Refuted(T, input, l)
    ensures Refuted(T, input, k)
  {
    hide Onward, Decide, Branch, Choices, Shaped;
    var a: nat :| LeadsIn(T, input, k, l, a);
    var R :| Refutes(T, input, l, R);
    LeadsInSum(T, input, k, l, R.spot, a, R.n);
    match R
    case Dead(b, s) =>
      assert Refutes(T, input, k, Dead(a + b, s));
    case Split(b, s, branches) =>
      assert Refutes(T, input, k, Split(a + b, s, branches));
  }

  lemma RefutedStuck(T: Tables, input: nat -> Lexeme, k: Spot)
    requires Shaped(T) && Decide(T, input, k).Stuck?
    ensures Refuted(T, input, k)
  {
    assert Refutes(T, input, k, Dead(0, k));
  }

  lemma {:induction false} Branches(T: Tables, input: nat -> Lexeme, k: Spot, n: nat) returns (bs: seq<Refutation>)
    requires Shaped(T) && Decide(T, input, k).Fork? && forall j: nat :: j < n ==> BranchRefuted(T, input, k, j)
    ensures |bs| == n && forall j :: 0 <= j < n ==>
        Branch(T, input, k, j).Next? && Refutes(T, input, Branch(T, input, k, j).spot, bs[j])
  {
    if n == 0 {
      bs := [];
    } else {
      var front := Branches(T, input, k, n - 1);
      assert BranchRefuted(T, input, k, n - 1);
      var R :| Refutes(T, input, Branch(T, input, k, n - 1).spot, R);
      bs := front + [R];
    }
  }

  lemma RefutedFork(T: Tables, input: nat -> Lexeme, k: Spot)
    requires Shaped(T) && Decide(T, input, k).Fork? && forall j: nat :: j < Choices(T, input, k) ==>
        BranchRefuted(T, input, k, j)
    ensures Refuted(T, input, k)
  {
    var bs := Branches(T, input, k, Choices(T, input, k));
    assert Refutes(T, input, k, Split(0, k, bs));
  }

  /** t makes choice number j. */
  ghost predicate Chooses(T: Tables, input: nat -> Lexeme, t: Turn, j: nat)
    requires Shaped(T)
  {
    Decide(T, input, t.spot).Fork? && j < Choices(T, input, t.spot) &&
        t.ctry == First(T, Decide(T, input, t.spot).e) + j
  }

  /** Choice j of the conflict at k is where the parser looks for it, and after the last one comes the
      end of the list. */
  ghost predicate Listed(g: Packed, A: Automaton, T: Tables, input: nat -> Lexeme, k: Spot, j: nat)
    requires g.WellFormed() && Shaped(T) && Decide(T, input, k).Fork?
  {
    var e := Decide(T, input, k).e;
    var c := First(T, e) + j;
    && 0 <= e && 0 <= c && c + 1 < |T.ctable| && T.ctable[c] >= 0
    && (T.ctable[c + 1] >= 0 <==> j + 1 < Choices(T, input, k))
    && TurnOK(g, A, T, input, Turn(k, c))
  }

  lemma ListsDecode(g: Packed, A: Automaton, T: Tables, q: nat, key: int, e: int, values: seq<int>, reduceFirst: bool)
    requires ListIs(g, A, T, q, key, e, values, reduceFirst)
    ensures 0 <= e < |T.ctable| && Decode(T.ctable, e) == values && First(T, e) == e + (if reduceFirst then 1 else 0)
  {
    ListEntry(g, A, T, q, key, e, values, reduceFirst, 0);
    DecodeStored(T.ctable, e, values, reduceFirst);
  }

  lemma ListPlaces(g: Packed, A: Automaton, T: Tables, q: nat, key: int, e: int, values: seq<int>, reduceFirst: bool,
                   j: nat)
    requires ListIs(g, A, T, q, key, e, values, reduceFirst) && j <= |values|
    ensures j < |values| ==> values[j] >= 0
    ensures e >= 0
  {}

  lemma ChoiceListed(g: Packed, A: Automaton, T: Tables, input: nat -> Lexeme, k: Spot, j: nat)
    requires TablesSound(g, A, T) && SpotOK(g, A, input, k) && Decide(T, input, k).Fork? && j < Choices(T, input, k)
    ensures Listed(g, A, T, input, k, j)
  {
    hide ListIs, Decode, StateSound, Canonical, Packed.WellFormed, SpotOK;
    var e := Decide(T, input, k).e;
    var q, key := Top(k.stack), Norm(input(k.pos).code);
    DecideSound(g, A, T, input, k);
    var values, reduceFirst :| ListIs(g, A, T, q, key, e, values, reduceFirst);
    ListsDecode(g, A, T, q, key, e, values, reduceFirst);
    ListPlaces(g, A, T, q, key, e, values, reduceFirst, j);
    ListPlaces(g, A, T, q, key, e, values, reduceFirst, j + 1);
    ListEntry(g, A, T, q, key, e, values, reduceFirst, j);
    ListEntry(g, A, T, q, key, e, values, reduceFirst, j + 1);
    assert Trying(g, A, T, q, key, e, First(T, e) + j, values, reduceFirst, j);
  }

  lemma SomeChoice(g: Packed, A: Automaton, T: Tables, input: nat -> Lexeme, k: Spot)
    requires TablesSound(g, A, T) && SpotOK(g, A, input, k) && Decide(T, input, k).Fork?
    ensures Choices(T, input, k) > 0
  {
    var e := Decide(T, input, k).e;
    var q, key := Top(k.stack), Norm(input(k.pos).code);
    DecideSound(g, A, T, input, k);
    var values, reduceFirst :| ListIs(g, A, T, q, key, e, values, reduceFirst);
    ListsDecode(g, A, T, q, key, e, values, reduceFirst);
  }

  /** Every turn makes one of the choices of its spot. */
  lemma TurnChooses(g: Packed, A: Automaton, T: Tables, input: nat -> Lexeme, t: Turn) returns (j: nat)
    requires g.WellFormed() && Shaped(T) && TurnOK(g, A, T, input, t)
    ensures Chooses(T, input, t, j)
  {
    var e := Decide(T, input, t.spot).e;
    var q, key := Top(t.spot.stack), Norm(input(t.spot.pos).code);
    var values, reduceFirst, i: nat :| Trying(g, A, T, q, key, e, t.ctry, values, reduceFirst, i);
    ListsDecode(g, A, T, q, key, e, values, reduceFirst);
    j := i;
  }

  /** All choices before the one t makes are refuted. */
  ghost predicate Tried(T: Tables, input: nat -> Lexeme, t: Turn)
    requires Shaped(T)
  {
    && Decide(T, input, t.spot).Fork?
    && forall j: nat :: First(T, Decide(T, input, t.spot).e) + j < t.ctry ==> BranchRefuted(T, input, t.spot, j)
  }

  ghost predicate AllTried(T: Tables, input: nat -> Lexeme, turns: seq<Turn>)
    requires Shaped(T)
  {
    forall i :: 0 <= i < |turns| ==> Tried(T, input, turns[i])
  }

  /** The search from k0: everything passed over is refuted, and k0 leads to the first conflict. */
  ghost predicate Searching(T: Tables, input: nat -> Lexeme, p: Plain, k0: Spot)
    requires Shaped(T)
  {
    p.path == [] && AllTried(T, input, p.saves) && Leads(T, input, k0, if p.saves == [] then p.here
        else p.saves[0].spot)
  }

  ghost predicate Outcome(T: Tables, input: nat -> Lexeme, q: Plain, k0: Spot)
    requires Shaped(T)
  {
    (q.status.Failed? ==> Refuted(T, input, k0)) && (q.status.Running? && q.path == [] ==> Searching(T, input, q, k0))
  }

  lemma DoSearch(T: Tables, input: nat -> Lexeme, p: Plain, a: Action, k0: Spot)
    requires Shaped(T) && p.status.Running? && p.path == [] && AllTried(T, input, p.saves)
    requires if p.saves != [] then Leads(T, input, k0, p.saves[0].spot)
             else Perform(T, input, p.here, a).Next? ==> Leads(T, input, k0, Perform(T, input, p.here, a).spot)
    ensures Outcome(T, input, PlainDo(T, input, p, a, false), k0)
  {
    hide Perform, AllTried, Leads, Shaped, Refuted;
  }

  /** What t chose comes to nothing. */
  ghost predicate ChoiceRefuted(T: Tables, input: nat -> Lexeme, t: Turn)
    requires Shaped(T)
  {
    forall j: nat :: Chooses(T, input, t, j) ==> BranchRefuted(T, input, t.spot, j)
  }

  /** A refuted choice is tried, and the spot it was made at is refuted once there is no other. */
  lemma ChoiceTried(g: Packed, A: Automaton, T: Tables, input: nat -> Lexeme, t: Turn)
    requires TablesSound(g, A, T) && TurnOK(g, A, T, input, t) && Tried(T, input, t)
    requires ChoiceRefuted(T, input, t)
    ensures Tried(T, input, t.(ctry := t.ctry + 1))
    ensures 0 <= t.ctry + 1 < |T.ctable| && (T.ctable[t.ctry + 1] < 0 ==> Refuted(T, input, t.spot))
  {
    var j := TurnChooses(g, A, T, input, t);
    ChoiceListed(g, A, T, input, t.spot, j);
    hide BranchRefuted, Choices, First, Decide, Refuted, TurnOK;
    if T.ctable[t.ctry + 1] < 0 {
      RefutedFork(T, input, t.spot);
    }
  }

  /** A choice whose outcome is refuted. */
  lemma ComesToRefuted(T: Tables, input: nat -> Lexeme, t: Turn, k: Spot, j: nat)
    requires Shaped(T) && ComesTo(T, input, t, k) && Refuted(T, input, k) && Chooses(T, input, t, j)
    ensures BranchRefuted(T, input, t.spot, j)
  {
    RefutedBack(T, input, Branch(T, input, t.spot, j).spot, k);
  }

  /** The innermost choice comes to nothing. */
  ghost predicate LastRefuted(T: Tables, input: nat -> Lexeme, saves: seq<Turn>)
    requires Shaped(T)
  {
    saves != [] ==> ChoiceRefuted(T, input, saves[|saves| - 1])
  }

  lemma LastIsRefuted(T: Tables, input: nat -> Lexeme, saves: seq<Turn>, k: Spot)
    requires Shaped(T) && (saves != [] ==> ComesTo(T, input, saves[|saves| - 1], k)) && Refuted(T, input, k)
    ensures LastRefuted(T, input, saves)
  {
    if saves != [] {
      var t := saves[|saves| - 1];
      forall j: nat | Chooses(T, input, t, j)
        ensures BranchRefuted(T, input, t.spot, j)
      {
        ComesToRefuted(T, input, t, k, j);
      }
    }
  }

  lemma RetrySearch(T: Tables, input: nat -> Lexeme, p: Plain, k0: Spot)
    requires Shaped(T) && p.status.Running? && p.path == [] && p.saves != [] && AllTried(T, input, p.saves)
    requires Leads(T, input, k0, p.saves[0].spot) && 0 <= NextTry(p) < |T.ctable|
    requires Tried(T, input, p.saves[|p.saves| - 1].(ctry := NextTry(p)))
    ensures Outcome(T, input, PlainDo(T, input, Retried(p), DoReduce(T.ctable[NextTry(p)]), false), k0)
  {
    hide Leads, Tried, Shaped, PlainDo, Outcome;
    DoSearch(T, input, Retried(p), DoReduce(T.ctable[NextTry(p)]), k0);
  }

  /** Backtracking refutes what it gives up. */
  lemma {:induction false} BacktrackSearch(g: Packed, A: Automaton, T: Tables, input: nat -> Lexeme, p: Plain, k0: Spot)
    requires TablesSound(g, A, T) && TurnsOK(g, A, T, input, p) && p.status.Running? && p.path == [] &&
        AllTried(T, input, p.saves)
    requires if p.saves != [] then Leads(T, input, k0, p.saves[0].spot) && LastRefuted(T, input, p.saves)
        else Refuted(T, input, k0)
    ensures Outcome(T, input, PlainBacktrack(T, input, p, false), k0)
    decreases |p.saves|
  {
    hide TablesSound, TurnOK, Leads, Tried, Shaped, Packed.WellFormed, PlainDo, ChoiceRefuted, Refuted, ComesTo;
    TablesShaped(g, A, T);
    if p.saves != [] {
      var n := |p.saves| - 1;
      var t := p.saves[n];
      ChoiceTried(g, A, T, input, t);
      if T.ctable[NextTry(p)] >= 0 {
        RetrySearch(T, input, p, k0);
      } else {
        GiveUpOK(g, A, T, input, p);
        LinkedPrefix(T, input, p.saves, n);
        if n == 0 {
          RefutedBack(T, input, k0, t.spot);
        }
        LastIsRefuted(T, input, p.saves[..n], t.spot);
        BacktrackSearch(g, A, T, input, GivenUp(p), k0);
      }
    }
  }

  /** The new turn has passed over no choice. */
  lemma ForkSearch(T: Tables, input: nat -> Lexeme, p: Plain, e: int, k0: Spot)
    requires Shaped(T) && p.status.Running? && Searching(T, input, p, k0) && Decide(T, input, p.here) == Fork(e)
    ensures Outcome(T, input, PlainFork(T, input, p, e, false), k0)
  {
    hide Leads, Shaped, PlainDo, BranchRefuted, Decide;
    if 0 <= e < |T.ctable| {
      var t := Turn(p.here, First(T, e));
      assert Tried(T, input, t);
      DoSearch(T, input, p.(saves := p.saves + [t]), Alternative(T, e, First(T, e)), k0);
    }
  }

  lemma QuietSearch(T: Tables, input: nat -> Lexeme, p: Plain, a: Action, k0: Spot)
    requires Shaped(T) && p.status.Running? && Searching(T, input, p, k0)
    requires Decide(T, input, p.here) == a && (a.DoShift? || a.DoReduce?)
    ensures Outcome(T, input, PlainDo(T, input, p, a, false), k0)
  {
    hide Shaped, PlainDo, Outcome, AllTried, Perform, Decide;
    if p.saves == [] && Perform(T, input, p.here, a).Next? {
      var n: nat :| LeadsIn(T, input, k0, p.here, n);
      LeadsOn(T, input, k0, p.here, n);
    }
    DoSearch(T, input, p, a, k0);
  }

  lemma StuckSearch(g: Packed, A: Automaton, T: Tables, input: nat -> Lexeme, p: Plain, k0: Spot)
    requires TablesSound(g, A, T) && PlainOK(g, A, T, input, p) && p.status.Running? && Searching(T, input, p, k0)
    requires Decide(T, input, p.here).Stuck?
    ensures Outcome(T, input, PlainBacktrack(T, input, p, false), k0)
  {
    hide TablesSound, TurnOK, Shaped, Packed.WellFormed, Outcome, AllTried, ComesTo, Leads, Decide, Refuted;
    TablesShaped(g, A, T);
    RefutedStuck(T, input, p.here);
    LastIsRefuted(T, input, p.saves, p.here);
    if p.saves == [] {
      RefutedBack(T, input, k0, p.here);
    }
    BacktrackSearch(g, A, T, input, p, k0);
  }

  lemma StepSearch(g: Packed, A: Automaton, T: Tables, input: nat -> Lexeme, p: Plain, k0: Spot)
    requires TablesSound(g, A, T) && PlainOK(g, A, T, input, p) && p.status.Running? && Searching(T, input, p, k0)
    ensures Outcome(T, input, PlainStep(T, input, p, false), k0)
  {
    hide TablesSound, PlainOK, Shaped, Packed.WellFormed, Outcome, Searching, Decide, PlainFork, PlainDo;
    TablesShaped(g, A, T);
    match Decide(T, input, p.here)
    case Fork(e) =>
      ForkSearch(T, input, p, e, k0);
    case Stuck =>
      StuckSearch(g, A, T, input, p, k0);
    case a =>
      QuietSearch(T, input, p, a, k0);
  }

  ghost function Origin(): Spot {
    Spot(Stack([0], []), 0)
  }

  ghost predicate NeverValid(yes: nat -> bool) {
    forall k: nat :: !yes(k)
  }

  ghost predicate Accepts(T: Tables, input: nat -> Lexeme, yes: nat -> bool)
    requires Shaped(T)
  {
    exists m: nat :: Run(T, input, yes, m).status.Accepted?
  }

  /** Steps from p come to accept. */
  ghost predicate AcceptsFrom(T: Tables, input: nat -> Lexeme, p: Plain, yes: nat -> bool, at: nat)
    requires Shaped(T)
  {
    exists m: nat :: PlainRun(T, input, p, yes, at, m).status.Accepted?
  }

  /** From a spot outside any trial on, without YYVALID: what is passed over is refuted, unless the
      search is to accept. */
  lemma {:induction false} SearchOn(g: Packed, A: Automaton, T: Tables, input: nat -> Lexeme, p: Plain,
                                    yes: nat -> bool, at: nat, n: nat)
    requires TablesSound(g, A, T) && RunOK(g, A, T, input, p) && p.status.Running? && p.saves == [] && p.path == []
    requires NeverValid(yes)
    ensures var q := PlainRun(T, input, p, yes, at, n);
            AcceptsFrom(T, input, p, yes, at)
            || (Outcome(T, input, q, p.here) && q.path == [] && !q.status.Accepted?)
    decreases n
  {
    hide TablesSound, RunOK, Shaped, Packed.WellFormed, Outcome, PlainStep, AcceptsFrom;
    TablesShaped(g, A, T);
    if n == 0 {
      FromOutside(T, input, p);
    } else {
      SearchOn(g, A, T, input, p, yes, at, n - 1);
      if !AcceptsFrom(T, input, p, yes, at) {
        SearchNext(g, A, T, input, p, yes, at, n - 1);
      }
    }
  }

  lemma FromOutside(T: Tables, input: nat -> Lexeme, p: Plain)
    requires Shaped(T) && p.status.Running? && p.saves == [] && p.path == []
    ensures Outcome(T, input, p, p.here)
  {
    assert LeadsIn(T, input, p.here, p.here, 0);
  }

  /** Without YYVALID a path is set up at the end of the input alone, so that its replay accepts. */
  lemma PathAccepts(g: Packed, A: Automaton, T: Tables, input: nat -> Lexeme, p: Plain, yes: nat -> bool, at: nat,
                    n: nat)
    requires TablesSound(g, A, T) && Shaped(T) && RunOK(g, A, T, input, PlainRun(T, input, p, yes, at, n))
    requires NeverValid(yes) && PlainRun(T, input, p, yes, at, n).status.Running?
    requires PlainRun(T, input, p, yes, at, n).path == [] && PlainRun(T, input, p, yes, at, n + 1).path != []
    ensures AcceptsFrom(T, input, p, yes, at)
  {
    hide TablesSound, Shaped, Packed.WellFormed, PlainStep, Acting, PlainOK, Perform, Performs, Outside;
    var q := PlainRun(T, input, p, yes, at, n);
    SingleStep(T, input, q, yes, at + n);
    var m := ReplayFrom(g, A, T, input, q, yes, at + n);
    DoneAccepts(T, input, PlainRun(T, input, q, yes, at + n, m), Acting(T, input, q), yes(at + n + m));
    PlainRunSum(T, input, p, yes, at, n, m);
    assert PlainRun(T, input, p, yes, at, n + m + 1).status.Accepted?;
  }

  lemma SearchNext(g: Packed, A: Automaton, T: Tables, input: nat -> Lexeme, p: Plain, yes: nat -> bool, at: nat,
                   n: nat)
    requires TablesSound(g, A, T) && RunOK(g, A, T, input, p) && NeverValid(yes) && !AcceptsFrom(T, input, p, yes, at)
    requires var q := PlainRun(T, input, p, yes, at, n); Outcome(T, input, q, p.here) && q.path == []
    ensures var q := PlainRun(T, input, p, yes, at, n + 1);
            Outcome(T, input, q, p.here) && q.path == [] && !q.status.Accepted?
  {
    hide TablesSound, Shaped, Packed.WellFormed, Searching, Refuted, PlainStep, Acting, PlainOK, Perform, Performs,
        Outside;
    TablesShaped(g, A, T);
    var q := PlainRun(T, input, p, yes, at, n);
    PlainRunOK(g, A, T, input, p, yes, at, n);
    if q.status.Running? {
      StepSearch(g, A, T, input, q, p.here);
      if PlainStep(T, input, q, false).path != [] {
        PathAccepts(g, A, T, input, p, yes, at, n);
      }
    } else {
      StoppedPlain(T, input, q, false);
    }
  }

  lemma StoppedPlain(T: Tables, input: nat -> Lexeme, p: Plain, valid: bool)
    requires Shaped(T) && !p.status.Running?
    ensures PlainStep(T, input, p, valid) == p
  {}

  lemma {:induction false} PlainRunOK(g: Packed, A: Automaton, T: Tables, input: nat -> Lexeme, p: Plain,
                                      yes: nat -> bool, at: nat, n: nat)
    requires TablesSound(g, A, T) && RunOK(g, A, T, input, p)
    ensures RunOK(g, A, T, input, PlainRun(T, input, p, yes, at, n))
    decreases n
  {
    if n > 0 {
      PlainRunOK(g, A, T, input, p, yes, at, n - 1);
      StepOK(g, A, T, input, PlainRun(T, input, p, yes, at, n - 1), yes(at + n - 1));
    }
  }

  lemma NoRounds(T: Tables, input: nat -> Lexeme, yes: nat -> bool)
    requires Shaped(T)
    ensures var p := Meaning(Run(T, input, yes, 0));
            p.status.Running? && p.here == Origin() && p.saves == [] && p.path == []
  {
    StartMeans();
  }

  lemma SearchRun(g: Packed, A: Automaton, T: Tables, input: nat -> Lexeme, yes: nat -> bool, n: nat)
    requires TablesSound(g, A, T) && NeverValid(yes)
    ensures Accepts(T, input, yes) || Outcome(T, input, Meaning(Run(T, input, yes, n)), Origin())
    ensures Accepts(T, input, yes) || (Run(T, input, yes, n).path == [] && !Run(T, input, yes, n).status.Accepted?)
  {
    hide TablesSound, RunOK, Shaped, Packed.WellFormed, Outcome, QueueOK, Meaning, PlainRun, Run, NeverValid;
    TablesShaped(g, A, T);
    RunGood(g, A, T, input, yes, 0);
    NoRounds(T, input, yes);
    var p := Meaning(Run(T, input, yes, 0));
    SearchOn(g, A, T, input, p, yes, 0, n);
    RunMeans(g, A, T, input, yes, 0, n);
    MeaningEnds(Run(T, input, yes, n));
    if m: nat :| PlainRun(T, input, p, yes, 0, m).status.Accepted? {
      RunMeans(g, A, T, input, yes, 0, m);
      MeaningEnds(Run(T, input, yes, m));
    }
  }

  lemma StartMeans()
    ensures Meaning(Start()).here == Origin() && Meaning(Start()).saves == [] && Meaning(Start()).path == []
  {}

  /** A run that fails has refuted every sequence of alternatives. */
  lemma FailedIsRefuted(g: Packed, A: Automaton, T: Tables, input: nat -> Lexeme, yes: nat -> bool, n: nat)
    requires TablesSound(g, A, T) && NeverValid(yes) && Run(T, input, yes, n).status.Failed?
    ensures Refuted(T, input, Origin())
  {
    hide TablesSound, Shaped, Packed.WellFormed, Step;
    TablesShaped(g, A, T);
    SearchRun(g, A, T, input, yes, n);
    if m: nat :| Run(T, input, yes, m).status.Accepted? {
      if m < n {
        RunEnded(T, input, yes, m, n);
      } else {
        RunEnded(T, input, yes, n, m);
      }
    }
    MeaningEnds(Run(T, input, yes, n));
  }

  /** Steps without a choice lead on during a trial too, as long as no action calls YYVALID. */
  lemma {:induction false} QuietTrial(T: Tables, input: nat -> Lexeme, p: Plain, k: Spot, n: nat, yes: nat -> bool,
                                      at: nat)
    requires Shaped(T) && p.status.Running? && NeverValid(yes) && LeadsIn(T, input, p.here, k, n)
    ensures PlainRun(T, input, p, yes, at, n) == p.(here := k)
    decreases n
  {
    hide PlainStep, Onward, Shaped;
    if n > 0 {
      var q := p.(here := Onward(T, input, p.here).spot);
      QuietTrial(T, input, q, k, n - 1, yes, at + 1);
      OnwardStep(T, input, p);
      OneStep(T, input, p, yes, at, n - 1);
    }
  }

  lemma OnwardStep(T: Tables, input: nat -> Lexeme, p: Plain)
    requires Shaped(T) && p.status.Running? && Onward(T, input, p.here).Next?
    ensures PlainStep(T, input, p, false) == p.(here := Onward(T, input, p.here).spot)
  {}

  /** p with choice j of the conflict at k being tried. */
  ghost function AtChoice(T: Tables, input: nat -> Lexeme, p: Plain, k: Spot, j: nat, here: Spot): Plain
    requires Shaped(T) && Decide(T, input, k).Fork?
  {
    p.(here := here, saves := p.saves + [Turn(k, First(T, Decide(T, input, k).e) + j)])
  }

  /** The parser tries the first choice. */
  lemma FirstTried(T: Tables, input: nat -> Lexeme, p: Plain)
    requires Shaped(T) && p.status.Running? && p.path == [] && Decide(T, input, p.here).Fork?
    requires 0 <= Decide(T, input, p.here).e < |T.ctable| && Branch(T, input, p.here, 0).Next?
    ensures PlainStep(T, input, p, false) == AtChoice(T, input, p, p.here, 0, Branch(T, input, p.here, 0).spot)
  {}

  /** Backtracking from a choice tries the next one, or gives the conflict up. */
  lemma NextTried(g: Packed, A: Automaton, T: Tables, input: nat -> Lexeme, p: Plain, k: Spot, j: nat, here: Spot)
    requires TablesSound(g, A, T) && SpotOK(g, A, input, k) && Decide(T, input, k).Fork? && j < Choices(T, input, k)
    requires p.status.Running? && p.path == []
    requires j + 1 < Choices(T, input, k) ==> Branch(T, input, k, j + 1).Next?
    ensures PlainBacktrack(T, input, AtChoice(T, input, p, k, j, here), false) ==
            if j + 1 < Choices(T, input, k) then AtChoice(T, input, p, k, j + 1, Branch(T, input, k, j + 1).spot)
            else PlainBacktrack(T, input, p.(here := k), false)
  {
    hide TablesSound, Packed.WellFormed, Shaped, Choices, Decide, Perform, TurnOK, SpotOK;
    TablesShaped(g, A, T);
    ChoiceListed(g, A, T, input, k, j);
    var q := AtChoice(T, input, p, k, j, here);
    assert q.saves[..|q.saves| - 1] == p.saves;
    assert NextTry(q) == First(T, Decide(T, input, k).e) + j + 1;
  }

  /** A refuted spot sends the parser back to the innermost save. */
  lemma {:induction false} RefutedRuns(g: Packed, A: Automaton, T: Tables, input: nat -> Lexeme, p: Plain,
                                       R: Refutation, yes: nat -> bool, at: nat) returns (m: nat, k: Spot)
    requires TablesSound(g, A, T) && PlainOK(g, A, T, input, p) && p.status.Running? && p.path == [] && NeverValid(yes)
    requires Refutes(T, input, p.here, R)
    ensures PlainRun(T, input, p, yes, at, m) == PlainBacktrack(T, input, p.(here := k), false)
    decreases R, 2, 0
  {
    hide TablesSound, PlainOK, Shaped, Packed.WellFormed, PlainStep, PlainBacktrack, Branch, Choices, PlainRun;
    TablesShaped(g, A, T);
    QuietTrial(T, input, p, R.spot, R.n, yes, at);
    StaysOK(g, A, T, input, p, yes, at, R.n);
    var p1 := p.(here := R.spot);
    match R
    case Dead(n, s) =>
      SingleStep(T, input, p1, yes, at + n);
      StuckStep(T, input, p1);
      PlainRunSum(T, input, p, yes, at, n, 1);
      m, k := n + 1, s;
    case Split(n, s, branches) =>
      var l := BranchesRun(g, A, T, input, p1, R, yes, at + n);
      PlainRunSum(T, input, p, yes, at, n, l);
      m, k := n + l, s;
  }

  lemma StuckStep(T: Tables, input: nat -> Lexeme, p: Plain)
    requires Shaped(T) && p.status.Running? && Decide(T, input, p.here).Stuck?
    ensures PlainStep(T, input, p, false) == PlainBacktrack(T, input, p, false)
  {}

  lemma StaysOK(g: Packed, A: Automaton, T: Tables, input: nat -> Lexeme, p: Plain, yes: nat -> bool, at: nat, n: nat)
    requires TablesSound(g, A, T) && PlainOK(g, A, T, input, p) && p.status.Running?
    ensures PlainRun(T, input, p, yes, at, n).status.Running? ==>
        PlainOK(g, A, T, input, PlainRun(T, input, p, yes, at, n))
  {
    PlainRunOK(g, A, T, input, p, yes, at, n);
  }

  lemma BranchesRun(g: Packed, A: Automaton, T: Tables, input: nat -> Lexeme, p: Plain, R: Refutation, yes: nat -> bool,
                    at: nat) returns (m: nat)
    requires TablesSound(g, A, T) && PlainOK(g, A, T, input, p) && p.status.Running? && p.path == [] && NeverValid(yes)
    requires R.Split? && R.spot == p.here && Refutes(T, input, p.here, R.(n := 0))
    ensures PlainRun(T, input, p, yes, at, m) == PlainBacktrack(T, input, p, false)
    decreases R, 1, 0
  {
    hide TablesSound, Shaped, Packed.WellFormed, PlainStep, PlainBacktrack, Branch, Choices, PlainRun, TurnOK, SpotOK,
        Linked, ComesTo;
    TablesShaped(g, A, T);
    SomeChoice(g, A, T, input, p.here);
    ChoiceListed(g, A, T, input, p.here, 0);
    assert Branch(T, input, p.here, 0).Next?;
    FirstTried(T, input, p);
    SingleStep(T, input, p, yes, at);
    StaysOK(g, A, T, input, p, yes, at, 1);
    var l := ChoicesRun(g, A, T, input, p, R, 0, yes, at + 1);
    PlainRunSum(T, input, p, yes, at, 1, l);
    m := 1 + l;
  }

  /** From one choice on, all are tried in turn and come to nothing. */
  lemma {:induction false} ChoicesRun(g: Packed, A: Automaton, T: Tables, input: nat -> Lexeme, p: Plain, R: Refutation,
                                      j: nat, yes: nat -> bool, at: nat) returns (m: nat)
    requires TablesSound(g, A, T) && PlainOK(g, A, T, input, p) && p.status.Running? && p.path == [] && NeverValid(yes)
    requires R.Split? && R.spot == p.here && Refutes(T, input, p.here, R.(n := 0)) && j < |R.branches|
    requires PlainOK(g, A, T, input, AtChoice(T, input, p, p.here, j, Branch(T, input, p.here, j).spot))
    ensures PlainRun(T, input, AtChoice(T, input, p, p.here, j, Branch(T, input, p.here, j).spot), yes, at, m) ==
        PlainBacktrack(T, input, p, false)
    decreases R, 0, |R.branches| - j
  {
    hide TablesSound, Shaped, Packed.WellFormed, PlainStep, PlainBacktrack, Branch, Choices, PlainRun, TurnOK, SpotOK,
        Linked, ComesTo, Leads;
    TablesShaped(g, A, T);
    var c := AtChoice(T, input, p, p.here, j, Branch(T, input, p.here, j).spot);
    var l, k := RefutedRuns(g, A, T, input, c, R.branches[j], yes, at);
    StaysOK(g, A, T, input, c, yes, at, l);
    assert c.(here := k) == AtChoice(T, input, p, p.here, j, k);
    assert j + 1 < |R.branches| ==> Branch(T, input, p.here, j + 1).Next?;
    NextTried(g, A, T, input, p, p.here, j, k);
    if j + 1 < |R.branches| {
      var i := ChoicesRun(g, A, T, input, p, R, j + 1, yes, at + l);
      PlainRunSum(T, input, c, yes, at, l, i);
      m := l + i;
    } else {
      m := l;
    }
  }

  /** A search in which every sequence of alternatives is refuted fails. */
  lemma RefutedFails(g: Packed, A: Automaton, T: Tables, input: nat -> Lexeme, yes: nat -> bool) returns (n: nat)
    requires TablesSound(g, A, T) && NeverValid(yes) && Refuted(T, input, Origin())
    ensures Run(T, input, yes, n).status.Failed?
  {
    hide TablesSound, PlainOK, Shaped, Packed.WellFormed, PlainStep, Step, QueueOK, PlainRun, Refutes;
    TablesShaped(g, A, T);
    var R: Refutation :| Refutes(T, input, Origin(), R);
    RunGood(g, A, T, input, yes, 0);
    var p := Meaning(Run(T, input, yes, 0));
    StartMeans();
    var m, k := RefutedRuns(g, A, T, input, p, R, yes, 0);
    RunMeans(g, A, T, input, yes, 0, m);
    n := m;
    MeaningEnds(Run(T, input, yes, m));
  }

  /** A run without YYVALID fails, for some number of rounds, exactly when every sequence of
      alternatives from the first conflict on ends in an error. */
  lemma FailsExactly(g: Packed, A: Automaton, T: Tables, input: nat -> Lexeme, yes: nat -> bool)
    requires TablesSound(g, A, T) && Shaped(T) && NeverValid(yes)
    ensures (exists n: nat :: Run(T, input, yes, n).status.Failed?) <==> Refuted(T, input, Origin())
  {
    hide TablesSound, Refuted, Run;
    if n: nat :| Run(T, input, yes, n).status.Failed? {
      FailedIsRefuted(g, A, T, input, yes, n);
    }
    if Refuted(T, input, Origin()) {
      var n := RefutedFails(g, A, T, input, yes);
    }
  }
}

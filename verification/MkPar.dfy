/** mkpar.c: the ordered action lists, conflict resolution by precedence, default reductions. */
module MkPar {
  import opened BitRows
  import opened Grammar
  import opened Closure
  import opened LR0
  import opened Paths
  import opened GotoMap
  import opened Lalr

  datatype Code = Shift | Reduce
  datatype Assoc = Token | Left | Right | Nonassoc

  /** suppressed: 0 the action stands, 1 it is one side of a conflict, 2 precedence removed it. */
  datatype Action = Action(symbol: nat, number: nat, prec: int, code: Code, assoc: Assoc, suppressed: nat)

  datatype Precedence = Precedence(symbolPrec: seq<int>, symbolAssoc: seq<Assoc>, rulePrec: seq<int>,
      ruleAssoc: seq<Assoc>)

  ghost predicate Covers(P: Precedence, g: Packed) {
    |P.symbolPrec| == |P.symbolAssoc| == g.nsyms && |P.rulePrec| == |P.ruleAssoc| == |g.rlhs|
  }

  function ShiftAction(P: Precedence, t: nat, q: nat): Action
    requires t < |P.symbolPrec| && t < |P.symbolAssoc|
  {
    Action(t, q, P.symbolPrec[t], Shift, P.symbolAssoc[t], 0)
  }

  function ReduceAction(P: Precedence, t: nat, r: nat): Action
    requires r < |P.rulePrec| && r < |P.ruleAssoc|
  {
    Action(t, r, P.rulePrec[r], Reduce, P.ruleAssoc[r], 0)
  }

  /** Lists are ordered by token, shifts first, then by rule. */
  ghost predicate Before(a: Action, b: Action) {
    || a.symbol < b.symbol
    || (a.symbol == b.symbol && a.code == Shift && b.code == Reduce)
    || (a.symbol == b.symbol && a.code == b.code == Reduce && a.number < b.number)
  }

  ghost predicate Ordered(row: seq<Action>) {
    forall i, j :: 0 <= i < j < |row| ==> Before(row[i], row[j])
  }

  /** get_shifts: the token shifts of a state; rows are sorted, so the list comes out sorted. */
  method GetShifts(g: Packed, A: Automaton, P: Precedence, stateno: nat) returns (actions: seq<Action>)
    requires g.WellFormed() && Canonical(g, A) && Covers(P, g) && stateno < |A.states|
    ensures Ordered(actions)
    ensures forall a :: a in actions <==> IsShift(g, A, P, stateno, a)
  {
    var row := A.shifts[stateno];
    assert RowsOK(g, A.states, A.shifts, A.reductions, stateno);
    actions := [];
    var i: nat := |row|;
    while i > 0
      invariant i <= |row| && Ordered(actions)
      invariant forall a :: a in actions <==> IsShift(g, A, P, stateno, a) && a.number in row[i..]
    {
      i := i - 1;
      var symbol := EntrySymbol(g, A, stateno, i);
      if symbol < g.ntokens {
        PrependShift(g, A, P, stateno, i, actions);
        actions := [ShiftAction(P, symbol, row[i])] + actions;
      }
      assert row[i..] == [row[i]] + row[i + 1..];
    }
    assert row[0..] == row;
  }

  ghost predicate IsShift(g: Packed, A: Automaton, P: Precedence, q: nat, a: Action)
    requires Covers(P, g)
  {
    a.symbol < g.ntokens && a.symbol < g.nsyms && Goto(A, q, a.symbol, a.number) &&
        a == ShiftAction(P, a.symbol, a.number)
  }

  lemma PrependShift(g: Packed, A: Automaton, P: Precedence, q: nat, i: nat, rest: seq<Action>)
    requires Canonical(g, A) && Covers(P, g) && q < |A.states| && i < |A.shifts[q]|
    requires A.shifts[q][i] < |A.states| && A.states[A.shifts[q][i]].accessing < g.ntokens <= g.nsyms
    requires Ordered(rest) && forall a :: a in rest ==> IsShift(g, A, P, q, a) && a.number in A.shifts[q][i + 1..]
    ensures Ordered([ShiftAction(P, A.states[A.shifts[q][i]].accessing, A.shifts[q][i])] + rest)
  {
    assert RowsOK(g, A.states, A.shifts, A.reductions, q);
    forall j | 0 <= j < |rest|
      ensures A.states[A.shifts[q][i]].accessing < rest[j].symbol
    {
      assert rest[j] in rest;
      var k :| 0 <= k < |A.shifts[q][i + 1..]| && A.shifts[q][i + 1..][k] == rest[j].number;
    }
  }

  /** The entries before next come before a, the one at next after it. */
  ghost predicate Splits(actions: seq<Action>, a: Action, next: nat) {
    && next <= |actions| && (forall k :: 0 <= k < next ==> Before(actions[k], a))
    && (next < |actions| ==> Before(a, actions[next]))
  }

  /** The three loops of add_reduce: past smaller tokens, the shift on the token, smaller rules on it. */
  method FindSlot(actions: seq<Action>, ruleno: nat, symbol: nat, ghost a: Action) returns (next: nat)
    requires Ordered(actions) && a.symbol == symbol && a.code == Reduce && a.number == ruleno
    requires forall b :: b in actions && b.symbol == symbol && b.code == Reduce ==> b.number != ruleno
    ensures Splits(actions, a, next)
  {
    next := 0;
    while next < |actions| && actions[next].symbol < symbol
      invariant next <= |actions| && forall k :: 0 <= k < next ==> Before(actions[k], a)
    {
      next := next + 1;
    }
    while next < |actions| && actions[next].symbol == symbol && actions[next].code == Shift
      invariant next <= |actions| && forall k :: 0 <= k < next ==> Before(actions[k], a)
      invariant next < |actions| ==> actions[next].symbol >= symbol
    {
      assert next + 1 < |actions| ==> Before(actions[next], actions[next + 1]);
      next := next + 1;
    }
    while next < |actions| && actions[next].symbol == symbol && actions[next].code == Reduce &&
        actions[next].number < ruleno
      invariant next <= |actions| && forall k :: 0 <= k < next ==> Before(actions[k], a)
      invariant next < |actions| ==>
          actions[next].symbol > symbol || (actions[next].symbol == symbol && actions[next].code == Reduce)
    {
      assert next + 1 < |actions| ==> Before(actions[next], actions[next + 1]);
      next := next + 1;
    }
    assert next < |actions| ==> actions[next] in actions;
  }

  lemma SpliceOrdered(actions: seq<Action>, a: Action, next: nat)
    requires Ordered(actions) && Splits(actions, a, next)
    ensures Ordered(actions[..next] + [a] + actions[next..])
  {
    forall k | next < k < |actions|
      ensures Before(a, actions[k])
    {
      assert Before(actions[next], actions[k]);
    }
  }

  /** add_reduce: one splice, after the smaller entries; nothing else moves. */
  method AddReduce(P: Precedence, actions: seq<Action>, ruleno: nat, symbol: nat) returns (actions': seq<Action>)
    requires Ordered(actions) && ruleno < |P.rulePrec| && ruleno < |P.ruleAssoc|
    requires forall a :: a in actions && a.symbol == symbol && a.code == Reduce ==> a.number != ruleno
    ensures Ordered(actions')
    ensures exists k ::
              0 <= k <= |actions| && actions' == actions[..k] + [ReduceAction(P, symbol, ruleno)] + actions[k..]
  {
    var temp := ReduceAction(P, symbol, ruleno);
    var next := FindSlot(actions, ruleno, symbol, temp);
    SpliceOrdered(actions, temp, next);
    actions' := actions[..next] + [temp] + actions[next..];
  }

  /** a is the reduction of a state by one of its complete rules on one of its lookaheads. */
  ghost predicate IsReduce(A: Automaton, P: Precedence, la: seq<nat>, LA: seq<set<nat>>, ntokens: nat, q: nat,
                           a: Action) {
    q < |A.reductions| && exists k: nat :: k < |A.reductions[q]| && ReducesAs(A, P, la, LA, ntokens, q, k, a)
  }

  ghost predicate ReducesAs(A: Automaton, P: Precedence, la: seq<nat>, LA: seq<set<nat>>, ntokens: nat, q: nat, k: nat,
                            a: Action)
    requires q < |A.reductions| && k < |A.reductions[q]|
  {
    && q < |la| && la[q] + k < |LA| && a.symbol < ntokens && a.symbol in LA[la[q] + k]
    && a.number == A.reductions[q][k] && a.number < |P.rulePrec| && a.number < |P.ruleAssoc|
    && a == ReduceAction(P, a.symbol, a.number)
  }

  /** The actions of state q before conflicts are looked at. */
  ghost predicate RawActions(g: Packed, A: Automaton, P: Precedence, la: seq<nat>, LA: seq<set<nat>>, q: nat,
                             row: seq<Action>)
    requires Covers(P, g)
  {
    Ordered(row) && forall a :: a in row <==> IsShift(g, A, P, q, a) || IsReduce(A, P, la, LA, g.ntokens, q, a)
  }

  /** Reductions of rules before place k, and of rule k on tokens from t up. */
  ghost predicate ReducedSoFar(A: Automaton, P: Precedence, la: seq<nat>, LA: seq<set<nat>>, ntokens: nat, q: nat,
                               k: nat, t: nat, a: Action)
    requires q < |A.reductions|
  {
    exists j: nat :: j < |A.reductions[q]| && ReducesAs(A, P, la, LA, ntokens, q, j, a) &&
        (j < k || (j == k && t <= a.symbol))
  }

  /** add_reductions: every lookahead bit of every reduction of the state, spliced in. */
  method AddReductions(g: Packed, A: Automaton, P: Precedence, lookaheads: array<nat>, LAruleno: array<nat>,
                       LA: array2<Word>, stateno: nat, shifts: seq<Action>) returns (actions: seq<Action>)
    requires g.WellFormed() && Canonical(g, A) && Covers(P, g) && stateno < |A.states|
    requires Layout(A, lookaheads[..], LAruleno[..]) && LA.Length0 == LAruleno.Length &&
        LA.Length1 == WordSize(g.ntokens)
    requires Ordered(shifts) && forall a :: a in shifts <==> IsShift(g, A, P, stateno, a)
    ensures RawActions(g, A, P, lookaheads[..], Rows(LA), stateno, actions)
  {
    ghost var la, rows := lookaheads[..], Rows(LA);
    actions := shifts;
    var m, n := lookaheads[stateno], lookaheads[stateno + 1];
    assert SlotsHold(LAruleno[..], la[stateno], A.reductions[stateno]);
    var i := m;
    while i < n
      invariant m <= i <= n && Ordered(actions)
      invariant forall a :: a in actions <==>
                  IsShift(g, A, P, stateno, a) || ReducedSoFar(A, P, la, rows, g.ntokens, stateno, i - m, g.ntokens, a)
    {
      ghost var k := i - m;
      assert LAruleno[..][la[stateno] + k] == A.reductions[stateno][k];
      var ruleno := LAruleno[i];
      RuleOfReduction(g, A, stateno, k);
      var j: nat := g.ntokens;
      while j > 0
        invariant j <= g.ntokens && Ordered(actions)
        invariant forall a :: a in actions <==>
            IsShift(g, A, P, stateno, a) || ReducedSoFar(A, P, la, rows, g.ntokens, stateno, k, j, a)
      {
        j := j - 1;
        var bit := TestBit(LA, i, j);
        if bit {
          RuleIsNew(g, A, P, la, rows, stateno, k, j + 1, actions);
          ghost var before := actions;
          actions := AddReduce(P, actions, ruleno, j);
          SoFarStep(A, P, la, rows, g.ntokens, stateno, k, j);
          ghost var c :| 0 <= c <= |before| && actions == before[..c] + [ReduceAction(P, j, ruleno)] + before[c..];
          assert before == before[..c] + before[c..];
        } else {
          SoFarOther(A, P, la, rows, g.ntokens, stateno, k, j);
        }
      }
      forall a
        ensures ReducedSoFar(A, P, la, rows, g.ntokens, stateno, k, 0, a) <==>
            ReducedSoFar(A, P, la, rows, g.ntokens, stateno, k + 1, g.ntokens, a)
      {
      }
      i := i + 1;
    }
    forall a
      ensures ReducedSoFar(A, P, la, rows, g.ntokens, stateno, n - m, g.ntokens, a) <==>
          IsReduce(A, P, la, rows, g.ntokens, stateno, a)
    {
    }
  }

  lemma RuleOfReduction(g: Packed, A: Automaton, q: nat, k: nat)
    requires g.WellFormed() && Canonical(g, A) && q < |A.states| && k < |A.reductions[q]|
    ensures 2 <= A.reductions[q][k] < |g.rlhs|
  {
    assert RowsOK(g, A.states, A.shifts, A.reductions, q);
    assert A.reductions[q][k] in A.reductions[q];
    var i: nat :| i in ItemsOf(g, A, q) && i < |g.ritem| && g.ritem[i] < 0 && g.ritem[i] + A.reductions[q][k] == 0;
    ItemsInRules(g, A, q, i);
    var r := ItemHasRule(g, i);
    ItemAt(g, i, r);
  }

  lemma SoFarStep(A: Automaton, P: Precedence, la: seq<nat>, LA: seq<set<nat>>, ntokens: nat, q: nat, k: nat, t: nat)
    requires q < |A.reductions| && k < |A.reductions[q]| && t < ntokens && q < |la| && la[q] + k < |LA| &&
        t in LA[la[q] + k]
    requires A.reductions[q][k] < |P.rulePrec| && A.reductions[q][k] < |P.ruleAssoc|
    ensures forall a :: ReducedSoFar(A, P, la, LA, ntokens, q, k, t, a) <==>
              ReducedSoFar(A, P, la, LA, ntokens, q, k, t + 1, a) || a == ReduceAction(P, t, A.reductions[q][k])
  {
    var b := ReduceAction(P, t, A.reductions[q][k]);
    assert ReducesAs(A, P, la, LA, ntokens, q, k, b);
  }

  lemma SoFarOther(A: Automaton, P: Precedence, la: seq<nat>, LA: seq<set<nat>>, ntokens: nat, q: nat, k: nat, t: nat)
    requires q < |A.reductions| && k < |A.reductions[q]| && q < |la| && la[q] + k < |LA| && t !in LA[la[q] + k]
    ensures forall a :: ReducedSoFar(A, P, la, LA, ntokens, q, k, t, a) <==>
        ReducedSoFar(A, P, la, LA, ntokens, q, k, t + 1, a)
  {}

  /** Rule k has not been entered on token t yet. */
  lemma RuleIsNew(g: Packed, A: Automaton, P: Precedence, la: seq<nat>, LA: seq<set<nat>>, q: nat, k: nat, t: nat,
                  actions: seq<Action>)
    requires g.WellFormed() && Canonical(g, A) && Covers(P, g) && q < |A.states| && k < |A.reductions[q]| && t > 0
    requires forall a :: a in actions <==> IsShift(g, A, P, q, a) || ReducedSoFar(A, P, la, LA, g.ntokens, q, k, t, a)
    ensures forall a :: a in actions && a.symbol == t - 1 && a.code == Reduce ==> a.number != A.reductions[q][k]
  {
    assert RowsOK(g, A.states, A.shifts, A.reductions, q);
    forall a | a in actions && a.symbol == t - 1 && a.code == Reduce
      ensures a.number != A.reductions[q][k]
    {
      var j: nat :| j < |A.reductions[q]| && ReducesAs(A, P, la, LA, g.ntokens, q, j, a) &&
          (j < k || (j == k && t <= a.symbol));
    }
  }

  /** Where the run of actions on the symbol of p begins. */
  function Head(row: seq<Action>, p: nat): (h: nat)
    requires p < |row|
    ensures h <= p
  {
    if p == 0 || row[p - 1].symbol != row[p].symbol then p else Head(row, p - 1)
  }

  ghost predicate SameRun(row: seq<Action>, h: nat, k: nat)
    requires h < |row| && k < |row|
  {
    h < k && Head(row, k) == h
  }

  predicate Ranked(s: Action, r: Action) {
    s.prec > 0 && r.prec > 0
  }

  /** Precedence prefers reduction r to the shift s. */
  predicate Beats(s: Action, r: Action) {
    Ranked(s, r) && (s.prec < r.prec || (s.prec == r.prec && s.assoc == Left))
  }

  /** Precedence says an error: neither s nor r. */
  predicate Ties(s: Action, r: Action) {
    Ranked(s, r) && s.prec == r.prec && s.assoc != Left && s.assoc != Right
  }

  /** Precedence prefers the shift s to the reduction r. */
  predicate Loses(s: Action, r: Action) {
    Ranked(s, r) && !Beats(s, r) && !Ties(s, r)
  }

  /** A reduction of the run before place p beats the head. */
  ghost predicate BeatenBefore(row: seq<Action>, h: nat, p: nat)
    requires h < |row| && p <= |row|
  {
    exists k: nat :: k < p && SameRun(row, h, k) && Beats(row[h], row[k])
  }

  /** Among the first n actions the run of p goes on. */
  ghost predicate HasMore(row: seq<Action>, n: nat, p: nat)
    requires p < n <= |row|
  {
    p + 1 < n && row[p + 1].symbol == row[p].symbol
  }

  ghost predicate Overruled(row: seq<Action>, h: nat, n: nat)
    requires h < |row| && n <= |row|
  {
    exists k: nat :: k < n && SameRun(row, h, k) && (Beats(row[h], row[k]) || Ties(row[h], row[k]))
  }

  ghost predicate Disputed(row: seq<Action>, h: nat, n: nat)
    requires h < |row| && n <= |row|
  {
    exists k: nat :: k < n && SameRun(row, h, k) && !Ranked(row[h], row[k])
  }

  /** Every action of the run conflicts with its head, whatever the precedences. */
  predicate NoRanking(row: seq<Action>, final: bool, h: nat)
    requires h < |row|
  {
    (final && row[h].symbol == 0) || row[h].code == Reduce
  }

  /** What conflict resolution must say about action p of the first n actions, whatever the
      algorithm: the verdict on the first action of a token, and on each later one. */
  ghost function Verdict(row: seq<Action>, final: bool, n: nat, p: nat): nat
    requires p < n <= |row|
  {
    var h := Head(row, p);
    if p == h then
      if !HasMore(row, n, p) then 0
      else if NoRanking(row, final, h) then 1
      else if Overruled(row, h, n) then 2
      else if Disputed(row, h, n) then 1
      else 0
    else
      if NoRanking(row, final, h) || BeatenBefore(row, h, p) then 1
      else if Beats(row[h], row[p]) then (if HasMore(row, n, p) then 1 else 0)
      else if !Ranked(row[h], row[p]) then 1
      else 2
  }

  /** Action p counts as a shift/reduce conflict. */
  ghost predicate ShiftReduce(row: seq<Action>, final: bool, p: nat)
    requires p < |row|
  {
    var h := Head(row, p);
    p != h && ((final && row[p].symbol == 0) ||
               (row[h].code == Shift && !BeatenBefore(row, h, p) && !Ranked(row[h], row[p])))
  }

  /** Action p counts as a reduce/reduce conflict. */
  ghost predicate ReduceReduce(row: seq<Action>, final: bool, p: nat)
    requires p < |row|
  {
    var h := Head(row, p);
    p != h && !(final && row[p].symbol == 0) && (row[h].code == Reduce || BeatenBefore(row, h, p))
  }

  ghost function CountSR(row: seq<Action>, final: bool, n: nat): nat
    requires n <= |row|
  {
    if n == 0 then 0 else CountSR(row, final, n - 1) + (if ShiftReduce(row, final, n - 1) then 1 else 0)
  }

  ghost function CountRR(row: seq<Action>, final: bool, n: nat): nat
    requires n <= |row|
  {
    if n == 0 then 0 else CountRR(row, final, n - 1) + (if ReduceReduce(row, final, n - 1) then 1 else 0)
  }

  ghost predicate Unsuppressed(row: seq<Action>) {
    forall p :: 0 <= p < |row| ==> row[p].suppressed == 0
  }

  /** cur is row with the verdicts of its first n actions. */
  ghost predicate Judged(row: seq<Action>, final: bool, n: nat, cur: seq<Action>)
    requires n <= |row|
  {
    && |cur| == |row|
    && (forall p {:trigger cur[p]} :: 0 <= p < n ==> cur[p] == row[p].(suppressed := Verdict(row, final, n, p)))
    && (forall p :: n <= p < |row| ==> cur[p] == row[p])
  }

  /** The algorithm's preferred action: the head, or the first reduction that beat it. */
  ghost predicate Preferred(row: seq<Action>, final: bool, n: nat, pref: nat)
    requires 0 < n <= |row|
  {
    var h := Head(row, n - 1);
    h <= pref < n &&
    if !NoRanking(row, final, h) && BeatenBefore(row, h, n)
    then SameRun(row, h, pref) && Beats(row[h], row[pref]) && !BeatenBefore(row, h, pref)
    else pref == h
  }

  /** Only the first action of a token can be a shift. */
  ghost predicate OneShift(row: seq<Action>) {
    forall p :: 0 < p < |row| && row[p].symbol == row[p - 1].symbol ==> row[p].code == Reduce
  }

  lemma {:induction false} HeadOfRun(row: seq<Action>, p: nat, q: nat)
    requires p <= q < |row| && Head(row, q) <= p
    ensures Head(row, p) == Head(row, q) && row[p].symbol == row[q].symbol
    decreases q - p
  {
    if p < q {
      HeadOfRun(row, p, q - 1);
    }
  }

  /** An action of another run leaves a verdict alone. */
  lemma StepOutside(row: seq<Action>, final: bool, n: nat, p: nat)
    requires p < n < |row| && Head(row, p) != Head(row, n)
    ensures Verdict(row, final, n + 1, p) == Verdict(row, final, n, p)
  {
    var g := Head(row, p);
    assert !SameRun(row, g, n);
    assert HasMore(row, n + 1, p) <==> HasMore(row, n, p);
    assert Overruled(row, g, n + 1) <==> Overruled(row, g, n);
    assert Disputed(row, g, n + 1) <==> Disputed(row, g, n);
  }

  /** A new token leaves every earlier verdict alone. */
  lemma StepNew(row: seq<Action>, final: bool, n: nat, cur: seq<Action>)
    requires n < |row| && Unsuppressed(row) && Judged(row, final, n, cur) && Head(row, n) == n
    ensures Judged(row, final, n + 1, cur) && Preferred(row, final, n + 1, n)
    ensures !ShiftReduce(row, final, n) && !ReduceReduce(row, final, n)
  {
    forall p | 0 <= p < n
      ensures Verdict(row, final, n + 1, p) == Verdict(row, final, n, p)
    {
      StepOutside(row, final, n, p);
    }
    assert Verdict(row, final, n + 1, n) == 0;
    assert forall k: nat :: k <= n ==> !SameRun(row, n, k);
  }

  /** One more action of the current run: what can change are the verdicts on the head and on
      an action that was the last of the run. */
  lemma StepRun(row: seq<Action>, final: bool, n: nat, p: nat)
    requires p < n < |row| && Head(row, n) < p
    ensures var h := Head(row, n);
            Verdict(row, final, n + 1, p) ==
              (if !NoRanking(row, final, h) && !BeatenBefore(row, h, p) && Beats(row[h], row[p]) then 1
               else Verdict(row, final, n, p))
  {
    HeadOfRun(row, p, n);
    assert row[p + 1].symbol == row[p].symbol by {
      HeadOfRun(row, p + 1, n);
    }
  }

  lemma StepHead(row: seq<Action>, final: bool, n: nat)
    requires n < |row| && Head(row, n) < n
    ensures var h := Head(row, n);
            Verdict(row, final, n + 1, h) ==
              (if NoRanking(row, final, h) then 1
               else if Overruled(row, h, n) || Beats(row[h], row[n]) || Ties(row[h], row[n]) then 2
               else if Disputed(row, h, n) || !Ranked(row[h], row[n]) then 1
               else 0)
  {
    hide Overruled, Disputed, SameRun, Beats, Ties, Ranked;
    var h := Head(row, n);
    HeadOfRun(row, h, n);
    HeadOfRun(row, h + 1, n);
    SameAsHead(row, n);
    OverruledStep(row, h, n);
    DisputedStep(row, h, n);
  }

  /** One more action of the run is one more rival of its head. */
  lemma OverruledStep(row: seq<Action>, h: nat, n: nat)
    requires h < n < |row| && SameRun(row, h, n)
    ensures Overruled(row, h, n + 1) <==> Overruled(row, h, n) || Beats(row[h], row[n]) || Ties(row[h], row[n])
  {
    hide SameRun, Head, Beats, Ties;
    if Overruled(row, h, n + 1) && !(Beats(row[h], row[n]) || Ties(row[h], row[n])) {
      var k: nat :| k < n + 1 && SameRun(row, h, k) && (Beats(row[h], row[k]) || Ties(row[h], row[k]));
      assert k < n;
    }
  }

  lemma DisputedStep(row: seq<Action>, h: nat, n: nat)
    requires h < n < |row| && SameRun(row, h, n)
    ensures Disputed(row, h, n + 1) <==> Disputed(row, h, n) || !Ranked(row[h], row[n])
  {
    hide SameRun, Head, Ranked;
    if Disputed(row, h, n + 1) && Ranked(row[h], row[n]) {
      var k: nat :| k < n + 1 && SameRun(row, h, k) && !Ranked(row[h], row[k]);
      assert k < n;
    }
  }

  lemma SameAsHead(row: seq<Action>, n: nat)
    requires n < |row| && Head(row, n) < n
    ensures SameRun(row, Head(row, n), n)
  {}

  /** The state of the loop when action n continues the run that starts at h. */
  ghost predicate InRun(row: seq<Action>, final: bool, n: nat, pref: nat, h: nat) {
    && 0 < n < |row| && h == Head(row, n) < n && Unsuppressed(row) && OneShift(row)
    && Preferred(row, final, n, pref)
  }

  ghost predicate Won(row: seq<Action>, final: bool, n: nat, h: nat)
    requires n < |row| && h < |row|
  {
    !NoRanking(row, final, h) && BeatenBefore(row, h, n)
  }

  lemma RunStarts(row: seq<Action>, final: bool, n: nat, pref: nat, h: nat)
    requires InRun(row, final, n, pref, h)
    ensures Head(row, n - 1) == h && h <= pref < n && SameRun(row, h, n) && row[n].symbol == row[h].symbol
    ensures if Won(row, final, n, h) then SameRun(row, h, pref) && Beats(row[h], row[pref]) &&
        !BeatenBefore(row, h, pref)
            else pref == h
  {
    HeadOfRun(row, n - 1, n);
    HeadOfRun(row, h, n);
  }

  /** Only the head, the preferred action and the new action change their verdicts. */
  lemma StepOthers(row: seq<Action>, final: bool, n: nat, pref: nat, h: nat, p: nat)
    requires InRun(row, final, n, pref, h) && p < n && p != h && p != pref
    ensures Verdict(row, final, n + 1, p) == Verdict(row, final, n, p)
  {
    RunStarts(row, final, n, pref, h);
    if p < h {
      StepOutside(row, final, n, p);
    } else {
      StepRun(row, final, n, p);
      HeadOfRun(row, p, n);
      assert SameRun(row, h, p);
    }
  }

  /** Once a reduction has won, a further action only disputes the winner. */
  lemma StepWinner(row: seq<Action>, final: bool, n: nat, pref: nat, h: nat)
    requires InRun(row, final, n, pref, h) && Won(row, final, n, h)
    ensures h < pref < n && row[pref].code == Reduce
    ensures Verdict(row, final, n + 1, pref) == 1 && Verdict(row, final, n, pref) <= 1
    ensures Verdict(row, final, n + 1, h) == Verdict(row, final, n, h) == 2
  {
    RunStarts(row, final, n, pref, h);
    StepRun(row, final, n, pref);
    HeadOfRun(row, pref, n);
    HeadOfRun(row, pref - 1, n);
    HeadOfRun(row, h + 1, n);
    HeadOfRun(row, h, n);
    assert Overruled(row, h, n) && Overruled(row, h, n + 1);
  }

  /** A list that differs from the judged one at the head, the preferred action and n only. */
  lemma Rejudged(row: seq<Action>, final: bool, n: nat, pref: nat, h: nat, cur: seq<Action>, cur': seq<Action>)
    requires InRun(row, final, n, pref, h) && Judged(row, final, n, cur) && |cur'| == |cur|
    requires forall p :: 0 <= p < |cur| && p != h && p != pref && p != n ==> cur'[p] == cur[p]
    requires h <= pref < n
    requires cur'[h] == row[h].(suppressed := Verdict(row, final, n + 1, h))
    requires cur'[pref] == row[pref].(suppressed := Verdict(row, final, n + 1, pref))
    requires cur'[n] == row[n].(suppressed := Verdict(row, final, n + 1, n))
    ensures Judged(row, final, n + 1, cur')
  {
    forall p | 0 <= p < n && p != h && p != pref
      ensures Verdict(row, final, n + 1, p) == Verdict(row, final, n, p)
    {
      StepOthers(row, final, n, pref, h, p);
    }
  }

  /** The branches that mark both sides: no ranking, a later rival of the winner, or no precedence. */
  lemma StepMark(row: seq<Action>, final: bool, n: nat, pref: nat, h: nat, cur: seq<Action>)
    requires InRun(row, final, n, pref, h) && Judged(row, final, n, cur) && pref < n
    requires NoRanking(row, final, h) || Won(row, final, n, h) || !Ranked(row[h], row[n])
    ensures Judged(row, final, n + 1, MarkBoth(cur, pref, n))
  {
    RunStarts(row, final, n, pref, h);
    StepHead(row, final, n);
    if Won(row, final, n, h) {
      StepWinner(row, final, n, pref, h);
    } else {
      NoneBeyondHead(row, final, n);
    }
    assert Verdict(row, final, n + 1, n) == 1;
    Rejudged(row, final, n, pref, h, cur, MarkBoth(cur, pref, n));
  }

  lemma MarkPreferred(row: seq<Action>, final: bool, n: nat, pref: nat, h: nat)
    requires InRun(row, final, n, pref, h)
    requires NoRanking(row, final, h) || Won(row, final, n, h) || !Beats(row[h], row[n])
    ensures Preferred(row, final, n + 1, pref)
  {
    RunStarts(row, final, n, pref, h);
    assert BeatenBefore(row, h, n + 1) <==> BeatenBefore(row, h, n) || Beats(row[h], row[n]);
  }

  lemma StepBeats(row: seq<Action>, final: bool, n: nat, pref: nat, h: nat, cur: seq<Action>)
    requires InRun(row, final, n, pref, h) && Judged(row, final, n, cur)
    requires !NoRanking(row, final, h) && !Won(row, final, n, h) && Beats(row[h], row[n])
    ensures pref < |cur| && Judged(row, final, n + 1, cur[pref := cur[pref].(suppressed := 2)]) &&
        Preferred(row, final, n + 1, n)
  {
    RunStarts(row, final, n, pref, h);
    StepHead(row, final, n);
    assert Verdict(row, final, n + 1, n) == 0;
    Rejudged(row, final, n, pref, h, cur, cur[pref := cur[pref].(suppressed := 2)]);
  }

  lemma StepLoses(row: seq<Action>, final: bool, n: nat, pref: nat, h: nat, cur: seq<Action>)
    requires InRun(row, final, n, pref, h) && Judged(row, final, n, cur)
    requires !NoRanking(row, final, h) && !Won(row, final, n, h) && Loses(row[h], row[n])
    ensures |cur| == |row| && Judged(row, final, n + 1, cur[n := cur[n].(suppressed := 2)])
  {
    RunStarts(row, final, n, pref, h);
    StepHead(row, final, n);
    NoneBeyondHead(row, final, n);
    assert Verdict(row, final, n + 1, n) == 2;
    Rejudged(row, final, n, pref, h, cur, cur[n := cur[n].(suppressed := 2)]);
  }

  /** A head with no rival yet is neither overruled nor disputed. */
  lemma NoneBeyondHead(row: seq<Action>, final: bool, n: nat)
    requires n < |row| && Head(row, n) < n
    ensures !HasMore(row, n, Head(row, n)) ==> !Overruled(row, Head(row, n), n) && !Disputed(row, Head(row, n), n)
    ensures !HasMore(row, n, Head(row, n)) ==> Head(row, n) + 1 == n
    ensures Head(row, Head(row, n)) == Head(row, n)
  {
    var h := Head(row, n);
    HeadOfRun(row, h + 1, n);
    HeadOfRun(row, h, n);
  }

  lemma StepTies(row: seq<Action>, final: bool, n: nat, pref: nat, h: nat, cur: seq<Action>)
    requires InRun(row, final, n, pref, h) && Judged(row, final, n, cur)
    requires !NoRanking(row, final, h) && !Won(row, final, n, h) && Ties(row[h], row[n])
    ensures pref < n < |cur|
    ensures Judged(row, final, n + 1, cur[pref := cur[pref].(suppressed := 2)][n := cur[n].(suppressed := 2)])
  {
    RunStarts(row, final, n, pref, h);
    StepHead(row, final, n);
    assert Verdict(row, final, n + 1, n) == 2;
    Rejudged(row, final, n, pref, h, cur, cur[pref := cur[pref].(suppressed := 2)][n := cur[n].(suppressed := 2)]);
  }

  /** remove_conflicts on one state. */
  method ResolveRow(row: seq<Action>, final: bool) returns (cur: seq<Action>, SRcount: nat, RRcount: nat)
    requires Unsuppressed(row) && OneShift(row)
    ensures Judged(row, final, |row|, cur)
    ensures SRcount == CountSR(row, final, |row|) == |ShiftReduces(row, final, |row|)|
    ensures RRcount == CountRR(row, final, |row|) == |ReduceReduces(row, final, |row|)|
  {
    hide Progress, Judged, OneShift, Unsuppressed, CountSR, CountRR;
    cur := row;
    SRcount, RRcount := 0, 0;
    var symbol: int := -1;
    var pref := 0;
    var p := 0;
    ProgressStarts(row, final);
    while p < |row|
      invariant p <= |row| && Progress(row, final, p, cur, pref, symbol, SRcount, RRcount)
    {
      cur, pref, symbol, SRcount, RRcount := ResolveOne(row, final, p, pref, symbol, cur, SRcount, RRcount);
      p := p + 1;
    }
    ProgressEnds(row, final, cur, pref, symbol, SRcount, RRcount);
    CountSRIsSize(row, final, |row|);
    CountRRIsSize(row, final, |row|);
  }

  lemma ProgressStarts(row: seq<Action>, final: bool)
    ensures Progress(row, final, 0, row, 0, -1, 0, 0)
  {}

  lemma ProgressEnds(row: seq<Action>, final: bool, cur: seq<Action>, pref: nat, symbol: int, sr: nat, rr: nat)
    requires Progress(row, final, |row|, cur, pref, symbol, sr, rr)
    ensures Judged(row, final, |row|, cur) && sr == CountSR(row, final, |row|) && rr == CountRR(row, final, |row|)
  {}

  /** All loop variables before action n. */
  ghost predicate Progress(row: seq<Action>, final: bool, n: nat, cur: seq<Action>, pref: nat, symbol: int, sr: nat,
                           rr: nat)
    requires n <= |row|
  {
    && Judged(row, final, n, cur) && Tracking(row, final, n, pref, symbol)
    && sr == CountSR(row, final, n) && rr == CountRR(row, final, n)
  }

  lemma CountStep(row: seq<Action>, final: bool, p: nat)
    requires p < |row|
    ensures CountSR(row, final, p + 1) == CountSR(row, final, p) + (if ShiftReduce(row, final, p) then 1 else 0)
    ensures CountRR(row, final, p + 1) == CountRR(row, final, p) + (if ReduceReduce(row, final, p) then 1 else 0)
  {}

  /** The loop variables symbol and pref before action n. */
  ghost predicate Tracking(row: seq<Action>, final: bool, n: nat, pref: nat, symbol: int)
    requires n <= |row|
  {
    if n == 0 then symbol == -1 else symbol == row[n - 1].symbol && Preferred(row, final, n, pref)
  }

  /** One round: a new token, or the branches for an action on the token of the one before. */
  method ResolveOne(ghost row: seq<Action>, final: bool, p: nat, pref0: nat, symbol0: int, cur0: seq<Action>, sr0: nat,
                    rr0: nat) returns (cur: seq<Action>, pref: nat, symbol: int, sr: nat, rr: nat)
    requires p < |row| && Unsuppressed(row) && OneShift(row)
    requires Progress(row, final, p, cur0, pref0, symbol0, sr0, rr0)
    ensures Progress(row, final, p + 1, cur, pref, symbol, sr, rr)
  {
    cur, pref, symbol, sr, rr := cur0, pref0, symbol0, sr0, rr0;
    if cur[p].symbol != symbol {
      StepNew(row, final, p, cur);
      pref := p;
      symbol := cur[p].symbol;
    } else {
      var s, r;
      cur, pref, s, r := ResolveSame(row, final, p, pref, cur);
      sr, rr := sr + s, rr + r;
    }
    CountStep(row, final, p);
  }

  /** The branches of remove_conflicts for an action on the same token as the one before. */
  method ResolveSame(ghost row: seq<Action>, final: bool, p: nat, pref0: nat, cur0: seq<Action>)
    returns (cur: seq<Action>, pref: nat, sr: nat, rr: nat)
    requires p < |row| && InRun(row, final, p, pref0, Head(row, p)) && Judged(row, final, p, cur0)
    ensures Judged(row, final, p + 1, cur) && Preferred(row, final, p + 1, pref)
    ensures sr == (if ShiftReduce(row, final, p) then 1 else 0) && rr == (if ReduceReduce(row, final, p) then 1 else 0)
  {
    ghost var h := Head(row, p);
    RunStarts(row, final, p, pref0, h);
    if Won(row, final, p, h) {
      StepWinner(row, final, p, pref0, h);
    }
    cur, pref, sr, rr := cur0, pref0, 0, 0;
    if final && cur[p].symbol == 0 {
      StepMark(row, final, p, pref, h, cur);
      MarkPreferred(row, final, p, pref, h);
      sr := 1;
      cur := MarkBoth(cur, pref, p);
    } else if cur[pref].code == Shift {
      if cur[pref].prec > 0 && cur[p].prec > 0 {
        if cur[pref].prec < cur[p].prec || (cur[pref].prec == cur[p].prec && cur[pref].assoc == Left) {
          StepBeats(row, final, p, pref, h, cur);
          cur := cur[pref := cur[pref].(suppressed := 2)];
          pref := p;
        } else if cur[pref].prec > cur[p].prec || cur[pref].assoc == Right {
          StepLoses(row, final, p, pref, h, cur);
          MarkPreferred(row, final, p, pref, h);
          cur := cur[p := cur[p].(suppressed := 2)];
        } else {
          StepTies(row, final, p, pref, h, cur);
          MarkPreferred(row, final, p, pref, h);
          cur := cur[pref := cur[pref].(suppressed := 2)];
          cur := cur[p := cur[p].(suppressed := 2)];
        }
      } else {
        StepMark(row, final, p, pref, h, cur);
        MarkPreferred(row, final, p, pref, h);
        sr := 1;
        cur := MarkBoth(cur, pref, p);
      }
    } else {
      StepMark(row, final, p, pref, h, cur);
      MarkPreferred(row, final, p, pref, h);
      rr := 1;
      cur := MarkBoth(cur, pref, p);
    }
  }

  /** An unresolved conflict: p is suppressed, and so is the preferred action unless it already was. */
  function MarkBoth(cur: seq<Action>, pref: nat, p: nat): seq<Action>
    requires pref < p < |cur|
  {
    var marked := cur[p := cur[p].(suppressed := 1)];
    if marked[pref].suppressed == 0 then marked[pref := marked[pref].(suppressed := 1)] else marked
  }

  /** Lists in order keep the actions of one token together, at most one of them a shift. */
  lemma {:induction false} OrderedRuns(row: seq<Action>, p: nat, q: nat)
    requires Ordered(row) && p <= q < |row| && row[p].symbol == row[q].symbol
    ensures Head(row, q) == Head(row, p)
    decreases q
  {
    if p < q {
      assert Before(row[p], row[q - 1]) || p == q - 1;
      assert Before(row[q - 1], row[q]);
      OrderedRuns(row, p, q - 1);
    }
  }

  lemma OrderedOneShift(row: seq<Action>)
    requires Ordered(row)
    ensures OneShift(row)
  {
    forall p | 0 < p < |row| && row[p].symbol == row[p - 1].symbol
      ensures row[p].code == Reduce
    {
      assert Before(row[p - 1], row[p]);
    }
  }

  /** At most one action per token is left standing. */
  lemma AtMostOneStands(row: seq<Action>, final: bool, cur: seq<Action>, p: nat, q: nat)
    requires Ordered(row) && Judged(row, final, |row|, cur) && p < q < |row| && cur[p].symbol == cur[q].symbol
    ensures cur[p].suppressed != 0 || cur[q].suppressed != 0
  {
    OrderedRuns(row, p, q);
    var h := Head(row, q);
    HeadOfRun(row, p + 1, q);
    HeadOfRun(row, h, q);
    if p == h {
      assert SameRun(row, h, q);
    } else {
      assert SameRun(row, h, p);
    }
  }

  /** The winner p of a run, with an earlier rival k that has no precedence and nothing after it. */
  ghost predicate LateWinner(row: seq<Action>, final: bool, h: nat, p: nat, k: nat) {
    && h < k < p < |row| && SameRun(row, h, p) && SameRun(row, h, k)
    && !NoRanking(row, final, h) && Beats(row[h], row[p]) && !BeatenBefore(row, h, p) && !HasMore(row, |row|, p)
    && !Ranked(row[h], row[k])
  }

  /** One token can have both a standing action and an alternative in conflict, exactly when its
      last reduction wins by precedence after one without precedence. The parser looks up conflicts
      first; that it then never takes the winner is shown in LateWinners. */
  lemma StandingBesideConflict(row: seq<Action>, final: bool, cur: seq<Action>, h: nat, p: nat, k: nat)
    requires Judged(row, final, |row|, cur) && p < |row| && k < |row| && Head(row, p) == Head(row, k) == h
    ensures cur[p].suppressed == 0 && cur[k].suppressed == 1 <==> LateWinner(row, final, h, p, k)
  {
    HeadOfRun(row, h, p);
    HeadOfRun(row, h, k);
    if cur[p].suppressed == 0 && cur[k].suppressed == 1 {
      if p < k {
        HeadOfRun(row, p + 1, k);
      }
      if k < p {
        HeadOfRun(row, k + 1, p);
      }
    }
    if LateWinner(row, final, h, p, k) {
      assert !BeatenBefore(row, h, k);
    }
  }

  /** Actions p < q of the row are on one token, and no others are. */
  ghost predicate OnlyTwo(row: seq<Action>, p: nat, q: nat) {
    && p < q < |row| && row[p].symbol == row[q].symbol
    && forall k :: 0 <= k < |row| && k != p && k != q ==> row[k].symbol != row[p].symbol
  }

  lemma Between(row: seq<Action>, p: nat, k: nat, q: nat)
    requires Ordered(row) && p < k < q < |row| && row[p].symbol == row[q].symbol
    ensures row[k].symbol == row[p].symbol
  {
    assert Before(row[p], row[k]) && Before(row[k], row[q]);
  }

  lemma TwoInRun(row: seq<Action>, p: nat, q: nat)
    requires Ordered(row) && OnlyTwo(row, p, q)
    ensures q == p + 1 && Head(row, p) == Head(row, q) == p && !HasMore(row, |row|, q) && row[q].code == Reduce
  {
    assert Before(row[p], row[q]);
    if p + 1 < q {
      Between(row, p, p + 1, q);
    }
  }

  /** What becomes of a shift and a reduction that are alone on a token. Where both have a precedence the
      higher one stands; of equal ones the reduction stands if the token associates to the left, the
      shift if it does to the right, and else neither. Without precedences, and on the end token in the
      final state, they are in conflict. */
  lemma ShiftAgainstReduction(row: seq<Action>, final: bool, cur: seq<Action>, p: nat, q: nat)
    requires Ordered(row) && Judged(row, final, |row|, cur) && OnlyTwo(row, p, q) && row[p].code == Shift
    ensures var s, r := row[p], row[q];
            && p < |cur| && q < |cur|
            && (cur[p].suppressed, cur[q].suppressed) ==
               if (final && s.symbol == 0) || s.prec <= 0 || r.prec <= 0 then (1, 1)
               else if s.prec < r.prec then (2, 0)
               else if s.prec > r.prec then (0, 2)
               else if s.assoc == Left then (2, 0)
               else if s.assoc == Right then (0, 2)
               else (2, 2)
    ensures ShiftReduce(row, final, q) <==> cur[p].suppressed == 1
    ensures !ReduceReduce(row, final, q)
  {
    TwoInRun(row, p, q);
    assert SameRun(row, p, q);
    forall k: nat | k < |row| && SameRun(row, p, k)
      ensures k == q
    {
      HeadOfRun(row, p, k);
    }
  }

  /** Two reductions alone on a token are in conflict. */
  lemma ReductionAgainstReduction(row: seq<Action>, final: bool, cur: seq<Action>, p: nat, q: nat)
    requires Ordered(row) && Judged(row, final, |row|, cur) && OnlyTwo(row, p, q) && row[p].code == Reduce
    ensures p < |cur| && q < |cur| && cur[p].suppressed == 1 && cur[q].suppressed == 1
    ensures ShiftReduce(row, final, q) <==> final && row[p].symbol == 0
    ensures ReduceReduce(row, final, q) <==> !(final && row[p].symbol == 0)
  {
    TwoInRun(row, p, q);
  }

  /** A shift is removed if precedence, or the associativity of equal precedences, is against it in favour of
      one reduction, whatever else there is on its token. */
  lemma ShiftRemoved(row: seq<Action>, final: bool, cur: seq<Action>, p: nat, k: nat)
    requires Ordered(row) && Judged(row, final, |row|, cur) && p < |row| && k < |row|
    requires row[p].symbol == row[k].symbol && row[p].code == Shift && row[k].code == Reduce
    requires !(final && row[p].symbol == 0) && row[p].prec > 0 && row[k].prec > 0
    requires row[p].prec < row[k].prec || (row[p].prec == row[k].prec && row[p].assoc != Right)
    ensures cur[p].suppressed == 2
  {
    ShiftIsHead(row, p, k);
    assert Overruled(row, p, |row|);
  }

  /** The shift on a token comes first. */
  lemma ShiftIsHead(row: seq<Action>, p: nat, k: nat)
    requires Ordered(row) && p < |row| && k < |row|
    requires row[p].symbol == row[k].symbol && row[p].code == Shift && row[k].code == Reduce
    ensures p < k && Head(row, p) == p && SameRun(row, p, k) && HasMore(row, |row|, p)
  {
    assert p < k;
    OrderedRuns(row, p, k);
    if p > 0 {
      assert Before(row[p - 1], row[p]);
    }
    if p + 1 < k {
      Between(row, p, p + 1, k);
    }
  }

  /** Precedence, or the associativity of equal precedences, prefers action p to all reductions on its token. */
  ghost predicate Undefeated(row: seq<Action>, p: nat)
    requires p < |row|
  {
    forall j :: 0 <= j < |row| && row[j].symbol == row[p].symbol && row[j].code == Reduce && row[j].prec > 0 ==>
        row[p].prec > row[j].prec || (row[p].prec == row[j].prec && row[p].assoc == Right)
  }

  /** A shift that no reduction defeats is not removed, and the reductions with a precedence are. */
  lemma ReductionRemoved(row: seq<Action>, final: bool, cur: seq<Action>, p: nat, k: nat)
    requires Ordered(row) && Judged(row, final, |row|, cur) && p < |row| && k < |row|
    requires row[p].symbol == row[k].symbol && row[p].code == Shift && row[k].code == Reduce
    requires !(final && row[p].symbol == 0) && row[p].prec > 0 && row[k].prec > 0 && Undefeated(row, p)
    ensures cur[k].suppressed == 2
  {
    ShiftIsHead(row, p, k);
    forall j: nat | j < |row| && SameRun(row, p, j)
      ensures !Beats(row[p], row[j]) && !Ties(row[p], row[j])
    {
      HeadOfRun(row, p, j);
    }
    assert !BeatenBefore(row, p, k);
  }

  lemma ShiftStays(row: seq<Action>, final: bool, cur: seq<Action>, p: nat)
    requires Ordered(row) && Judged(row, final, |row|, cur) && p < |row| && row[p].code == Shift
    requires !(final && row[p].symbol == 0) && Undefeated(row, p)
    ensures cur[p].suppressed <= 1
  {
    if p > 0 {
      assert Before(row[p - 1], row[p]);
    }
    forall j: nat | j < |row| && SameRun(row, p, j)
      ensures !Beats(row[p], row[j]) && !Ties(row[p], row[j])
    {
      HeadOfRun(row, p, j);
      assert Before(row[p], row[j]);
    }
    assert !Overruled(row, p, |row|);
  }

  ghost function ShiftReduces(row: seq<Action>, final: bool, n: nat): set<nat>
    requires n <= |row|
  {
    set p: nat | p < n && ShiftReduce(row, final, p)
  }

  ghost function ReduceReduces(row: seq<Action>, final: bool, n: nat): set<nat>
    requires n <= |row|
  {
    set p: nat | p < n && ReduceReduce(row, final, p)
  }

  /** The counters are the numbers of actions that count. */
  lemma {:induction false} CountSRIsSize(row: seq<Action>, final: bool, n: nat)
    requires n <= |row|
    ensures CountSR(row, final, n) == |ShiftReduces(row, final, n)|
  {
    hide ShiftReduce;
    if n == 0 {
      assert ShiftReduces(row, final, 0) == {};
    } else {
      CountSRIsSize(row, final, n - 1);
      var s := ShiftReduces(row, final, n - 1);
      assert ShiftReduces(row, final, n) == if ShiftReduce(row, final, n - 1) then s + {n - 1} else s;
    }
  }

  lemma {:induction false} CountRRIsSize(row: seq<Action>, final: bool, n: nat)
    requires n <= |row|
    ensures CountRR(row, final, n) == |ReduceReduces(row, final, n)|
  {
    hide ReduceReduce;
    if n == 0 {
      assert ReduceReduces(row, final, 0) == {};
    } else {
      CountRRIsSize(row, final, n - 1);
      var s := ReduceReduces(row, final, n - 1);
      assert ReduceReduces(row, final, n) == if ReduceReduce(row, final, n - 1) then s + {n - 1} else s;
    }
  }

  /** The first action on a token is no conflict by itself. */
  lemma FirstIsNoConflict(row: seq<Action>, final: bool, p: nat)
    requires p < |row| && (p == 0 || row[p - 1].symbol != row[p].symbol)
    ensures !ShiftReduce(row, final, p) && !ReduceReduce(row, final, p)
  {}

  ghost function Ones(cur: seq<Action>, n: nat): nat
    requires n <= |cur|
  {
    if n == 0 then 0 else Ones(cur, n - 1) + (if cur[n - 1].suppressed == 1 then 1 else 0)
  }

  ghost function ConflictCount(row: seq<Action>, final: bool, n: nat): nat
    requires n <= |row|
  {
    CountSR(row, final, n) + CountRR(row, final, n)
  }

  /** A winner before place m that is itself disputed. */
  ghost predicate WinnerDisputed(row: seq<Action>, final: bool, h: nat, m: nat)
    requires h < |row| && m <= |row|
  {
    !NoRanking(row, final, h) && exists w: nat :: IsWinner(row, h, m, w) && HasMore(row, |row|, w)
  }

  ghost predicate IsWinner(row: seq<Action>, h: nat, m: nat, w: nat)
    requires h < |row| && m <= |row|
  {
    w < m && SameRun(row, h, w) && Beats(row[h], row[w]) && !BeatenBefore(row, h, w)
  }

  ghost predicate RunFrom(row: seq<Action>, h: nat, m: nat) {
    h < m <= |row| && forall k :: h <= k < m ==> Head(row, k) == h
  }

  ghost predicate RunBalance(row: seq<Action>, final: bool, cur: seq<Action>, h: nat, m: nat)
    requires h < m <= |row| && |cur| == |row|
  {
    Ones(cur, m) - Ones(cur, h) ==
      ConflictCount(row, final, m) - ConflictCount(row, final, h)
      + (if cur[h].suppressed == 1 then 1 else 0) + (if WinnerDisputed(row, final, h, m) then 1 else 0)
  }

  lemma BalanceStep(row: seq<Action>, final: bool, cur: seq<Action>, h: nat, p: nat)
    requires h < p < |row| == |cur| && SameRun(row, h, p) && RunBalance(row, final, cur, h, p)
    requires cur[p].suppressed == Verdict(row, final, |row|, p)
    ensures RunBalance(row, final, cur, h, p + 1)
  {
    WinnerStep(row, final, h, p);
    VerdictCounts(row, final, h, p);
    CountStep(row, final, p);
  }

  lemma BalanceStart(row: seq<Action>, final: bool, cur: seq<Action>, h: nat)
    requires h < |row| == |cur| && Head(row, h) == h
    ensures RunBalance(row, final, cur, h, h + 1)
  {
    CountStep(row, final, h);
    assert !WinnerDisputed(row, final, h, h + 1);
  }

  /** Within one token: the suppressed actions in conflict are those counted, plus the head or
      the winner they conflict with. */
  lemma {:induction false} RunOnes(row: seq<Action>, final: bool, cur: seq<Action>, h: nat, m: nat)
    requires Judged(row, final, |row|, cur) && RunFrom(row, h, m)
    ensures RunBalance(row, final, cur, h, m)
    decreases m
  {
    if m == h + 1 {
      BalanceStart(row, final, cur, h);
    } else {
      RunOnes(row, final, cur, h, m - 1);
      BalanceStep(row, final, cur, h, m - 1);
    }
  }

  /** p is the winner of its run and disputed by what follows. */
  ghost predicate DisputedWinner(row: seq<Action>, final: bool, h: nat, p: nat)
    requires h < |row| && p < |row|
  {
    !NoRanking(row, final, h) && !BeatenBefore(row, h, p) && Beats(row[h], row[p]) && HasMore(row, |row|, p)
  }

  lemma VerdictCounts(row: seq<Action>, final: bool, h: nat, p: nat)
    requires h < p < |row| && SameRun(row, h, p)
    ensures (Verdict(row, final, |row|, p) == 1) <==>
            (ShiftReduce(row, final, p) || ReduceReduce(row, final, p) || DisputedWinner(row, final, h, p))
    ensures !(ShiftReduce(row, final, p) && ReduceReduce(row, final, p))
    ensures DisputedWinner(row, final, h, p) ==> !ShiftReduce(row, final, p) && !ReduceReduce(row, final, p)
  {
    HeadOfRun(row, h, p);
  }

  lemma WinnerStep(row: seq<Action>, final: bool, h: nat, p: nat)
    requires h < p < |row| && SameRun(row, h, p)
    ensures WinnerDisputed(row, final, h, p + 1) <==>
        (WinnerDisputed(row, final, h, p) || DisputedWinner(row, final, h, p))
    ensures WinnerDisputed(row, final, h, p) ==> BeatenBefore(row, h, p)
  {
    if WinnerDisputed(row, final, h, p + 1) && !WinnerDisputed(row, final, h, p) {
      var w: nat :| IsWinner(row, h, p + 1, w) && HasMore(row, |row|, w);
      assert w == p;
    }
    if WinnerDisputed(row, final, h, p) {
      var w: nat :| IsWinner(row, h, p, w) && HasMore(row, |row|, w);
      assert IsWinner(row, h, p + 1, w);
    }
    if DisputedWinner(row, final, h, p) {
      assert IsWinner(row, h, p + 1, p);
    }
  }

  lemma {:induction false} ConflictsGrow(row: seq<Action>, final: bool, n: nat, m: nat)
    requires n <= m <= |row|
    ensures ConflictCount(row, final, n) <= ConflictCount(row, final, m)
    decreases m
  {
    if n < m {
      ConflictsGrow(row, final, n, m - 1);
    }
  }

  lemma OneCounted(row: seq<Action>, final: bool, h: nat, p: nat, m: nat)
    requires h <= p < m <= |row| && (ShiftReduce(row, final, p) || ReduceReduce(row, final, p))
    ensures ConflictCount(row, final, h) < ConflictCount(row, final, m)
  {
    ConflictsGrow(row, final, h, p);
    CountStep(row, final, p);
    ConflictsGrow(row, final, p + 1, m);
  }

  /** m is where the run of h ends. */
  ghost predicate WholeRun(row: seq<Action>, h: nat, m: nat) {
    RunFrom(row, h, m) && (m < |row| ==> Head(row, m) == m)
  }

  /** A token with a suppressed conflict has a counted one. */
  lemma ConflictIsCounted(row: seq<Action>, final: bool, cur: seq<Action>, h: nat, m: nat)
    requires Judged(row, final, |row|, cur) && WholeRun(row, h, m)
    requires cur[h].suppressed == 1 || WinnerDisputed(row, final, h, m)
    ensures ConflictCount(row, final, h) < ConflictCount(row, final, m)
    ensures !(cur[h].suppressed == 1 && WinnerDisputed(row, final, h, m))
  {
    assert Head(row, h) == h;
    if WinnerDisputed(row, final, h, m) {
      var w: nat :| IsWinner(row, h, m, w) && HasMore(row, |row|, w);
      assert Overruled(row, h, |row|);
      assert w + 1 < m && BeatenBefore(row, h, w + 1) && Head(row, w + 1) == h;
      OneCounted(row, final, h, w + 1, m);
      assert h + 1 < m && Head(row, h + 1) == h;
      HeadOfRun(row, h, h + 1);
    } else if NoRanking(row, final, h) {
      assert h + 1 < m && Head(row, h + 1) == h;
      HeadOfRun(row, h, h + 1);
      OneCounted(row, final, h, h + 1, m);
    } else {
      var k: nat :| k < |row| && SameRun(row, h, k) && !Ranked(row[h], row[k]);
      BeforeEnd(row, h, m, k);
      assert !BeatenBefore(row, h, k);
      OneCounted(row, final, h, k, m);
    }
  }

  lemma BeforeEnd(row: seq<Action>, h: nat, m: nat, k: nat)
    requires WholeRun(row, h, m) && k < |row| && SameRun(row, h, k)
    ensures k < m
  {
    if k >= m {
      HeadOfRun(row, m, k);
    }
  }

  /** Room for a token's conflict list: its members, a terminator and a leading mark. */
  lemma RunBudget(row: seq<Action>, final: bool, cur: seq<Action>, h: nat, m: nat)
    requires Judged(row, final, |row|, cur) && WholeRun(row, h, m)
    ensures Ones(cur, m) > Ones(cur, h) ==>
              Ones(cur, m) - Ones(cur, h) + 2 <= 4 * (ConflictCount(row, final, m) - ConflictCount(row, final, h))
  {
    RunOnes(row, final, cur, h, m);
    ConflictsGrow(row, final, h, m);
    if cur[h].suppressed == 1 || WinnerDisputed(row, final, h, m) {
      ConflictIsCounted(row, final, cur, h, m);
    }
  }

  /** Rule r is the only thing a state does, on some token other than the error token. */
  ghost predicate OnlyRule(row: seq<Action>, r: nat) {
    && (forall a :: a in row && a.suppressed <= 1 ==> a.code == Reduce && a.number == r)
    && exists a :: a in row && a.suppressed <= 1 && a.symbol != 1
  }

  /** sole_reduction: the rule that is all a state does, and 0 exactly when there is none. */
  method SoleReduction(row: seq<Action>) returns (r: nat)
    requires forall a :: a in row && a.code == Reduce ==> a.number > 0
    ensures r > 0 ==>
        && OnlyRule(row, r) && (forall a :: a in row && a.suppressed <= 1 ==> a.code == Reduce && a.number == r)
        && exists a :: a in row && a.suppressed <= 1 && a.symbol != 1
    ensures r == 0 ==> forall s: nat :: s > 0 ==> !OnlyRule(row, s)
  {
    var count := 0;
    r := 0;
    var p := 0;
    while p < |row|
      invariant p <= |row|
      invariant forall a :: a in row[..p] && a.suppressed <= 1 ==> a.code == Reduce && a.number == r && r > 0
      invariant r > 0 ==> exists a :: a in row[..p] && a.suppressed <= 1
      invariant count > 0 <==> exists a :: a in row[..p] && a.suppressed <= 1 && a.symbol != 1
    {
      assert row[..p + 1] == row[..p] + [row[p]];
      assert row[p] in row;
      if row[p].code == Shift && row[p].suppressed <= 1 {
        return 0;
      } else if row[p].code == Reduce && row[p].suppressed <= 1 {
        if r > 0 && row[p].number != r {
          return 0;
        }
        if row[p].symbol != 1 {
          count := count + 1;
        }
        r := row[p].number;
      }
      p := p + 1;
    }
    assert row[..p] == row;
    if count == 0 {
      r := 0;
    }
  }

  /** find_final_state: the state entered over the goal symbol from state 0. */
  method FindFinalState(g: Packed, A: Automaton) returns (finalState: nat)
    requires g.WellFormed() && Canonical(g, A)
    ensures Goto(A, 0, g.ntokens + 1, finalState)
  {
    ClosureIsClosed(g, A.states[0].items);
    ghost var q := GotoExists(g, A, 0, 1);
    var row := A.shifts[0];
    var goal := g.ritem[1];
    finalState := 0;
    var i: nat := |row|;
    while i > 0
      invariant i <= |row| && forall k :: i <= k < |row| ==> row[k] != q
    {
      i := i - 1;
      finalState := row[i];
      var symbol := EntrySymbol(g, A, 0, i);
      if symbol == goal {
        return;
      }
    }
  }

  ghost function SumSR(raws: seq<seq<Action>>, finalState: nat, n: nat): nat
    requires n <= |raws|
  {
    if n == 0 then 0 else SumSR(raws, finalState, n - 1) + CountSR(raws[n - 1], n - 1 == finalState, |raws[n - 1]|)
  }

  ghost function SumRR(raws: seq<seq<Action>>, finalState: nat, n: nat): nat
    requires n <= |raws|
  {
    if n == 0 then 0 else SumRR(raws, finalState, n - 1) + CountRR(raws[n - 1], n - 1 == finalState, |raws[n - 1]|)
  }

  /** The parser's rows are the judged action lists, and the default reductions are the only rules. */
  ghost predicate RowOK(g: Packed, A: Automaton, P: Precedence, la: seq<nat>, LA: seq<set<nat>>, finalState: nat,
                        q: nat, raw: seq<Action>, row: seq<Action>, defred: nat)
    requires Covers(P, g)
  {
    && RawActions(g, A, P, la, LA, q, raw) && Judged(raw, q == finalState, |raw|, row)
    && (defred > 0 ==> OnlyRule(row, defred)) && (defred == 0 ==> forall s: nat :: s > 0 ==> !OnlyRule(row, s))
  }

  ghost predicate ParserOK(g: Packed, A: Automaton, P: Precedence, la: seq<nat>, LA: seq<set<nat>>, finalState: nat,
                           raws: seq<seq<Action>>, parser: seq<seq<Action>>, defred: seq<nat>)
    requires Covers(P, g)
  {
    |raws| == |A.states| && RowsSoFar(g, A, P, la, LA, finalState, raws, parser, defred)
  }

  ghost predicate RowsSoFar(g: Packed, A: Automaton, P: Precedence, la: seq<nat>, LA: seq<set<nat>>, finalState: nat,
                            raws: seq<seq<Action>>, parser: seq<seq<Action>>, defred: seq<nat>)
    requires Covers(P, g)
  {
    && |raws| == |parser| == |defred|
    && forall q: nat :: q < |raws| ==> RowOK(g, A, P, la, LA, finalState, q, raws[q], parser[q], defred[q])
  }

  lemma RowsSnoc(g: Packed, A: Automaton, P: Precedence, la: seq<nat>, LA: seq<set<nat>>, finalState: nat,
                 raws: seq<seq<Action>>, parser: seq<seq<Action>>, defred: seq<nat>, raw: seq<Action>, row: seq<Action>,
                 rule: nat)
    requires Covers(P, g) && RowsSoFar(g, A, P, la, LA, finalState, raws, parser, defred)
    requires RowOK(g, A, P, la, LA, finalState, |raws|, raw, row, rule)
    ensures RowsSoFar(g, A, P, la, LA, finalState, raws + [raw], parser + [row], defred + [rule])
  {}

  /** Raw actions are unsuppressed and reduce by real rules. */
  lemma RawFacts(g: Packed, A: Automaton, P: Precedence, la: seq<nat>, LA: seq<set<nat>>, q: nat, raw: seq<Action>)
    requires g.WellFormed() && Canonical(g, A) && Covers(P, g) && RawActions(g, A, P, la, LA, q, raw) && q < |A.states|
    ensures Unsuppressed(raw) && OneShift(raw)
    ensures forall a :: a in raw && a.code == Reduce ==> a.number >= 2
    ensures forall a :: a in raw && a.code == Shift ==> a.number >= 1
    ensures forall a :: a in raw ==> a.symbol < g.ntokens
  {
    OrderedOneShift(raw);
    forall p | 0 <= p < |raw|
      ensures raw[p].suppressed == 0
    {
      assert raw[p] in raw;
    }
    forall a | a in raw
      ensures a.symbol < g.ntokens && (a.code == Reduce ==> a.number >= 2) && (a.code == Shift ==> a.number >= 1)
    {
      if IsShift(g, A, P, q, a) {
        GotoItems(g, A, q, a.symbol, a.number);
      } else {
        var k: nat :| k < |A.reductions[q]| && ReducesAs(A, P, la, LA, g.ntokens, q, k, a);
        RuleOfReduction(g, A, q, k);
      }
    }
  }

  /** make_parser: the actions of every state, resolved, with their conflict totals and defaults. */
  method MakeParser(g: Packed, A: Automaton, P: Precedence, lookaheads: array<nat>, LAruleno: array<nat>,
                    LA: array2<Word>) returns (parser: seq<seq<Action>>, defred: seq<nat>, finalState: nat,
                    SRtotal: nat, RRtotal: nat, ghost raws: seq<seq<Action>>)
    requires g.WellFormed() && Canonical(g, A) && Covers(P, g)
    requires Layout(A, lookaheads[..], LAruleno[..]) && LA.Length0 == LAruleno.Length &&
        LA.Length1 == WordSize(g.ntokens)
    ensures Goto(A, 0, g.ntokens + 1, finalState)
    ensures ParserOK(g, A, P, lookaheads[..], Rows(LA), finalState, raws, parser, defred)
    ensures SRtotal == SumSR(raws, finalState, |raws|) && RRtotal == SumRR(raws, finalState, |raws|)
  {
    hide RowOK, Canonical, Packed.WellFormed, Covers, SumSR, SumRR, CountSR, CountRR, Goto;
    finalState := FindFinalState(g, A);
    ghost var la, rows := lookaheads[..], Rows(LA);
    parser, defred, raws := [], [], [];
    NoRows(g, A, P, la, rows, finalState);
    SRtotal, RRtotal := 0, 0;
    var i := 0;
    while i < |A.states|
      invariant i == |raws| <= |A.states| && RowsSoFar(g, A, P, la, rows, finalState, raws, parser, defred)
      invariant SRtotal == SumSR(raws, finalState, |raws|) && RRtotal == SumRR(raws, finalState, |raws|)
    {
      var raw, row, rule, sr, rr := MakeRow(g, A, P, lookaheads, LAruleno, LA, finalState, i);
      RowsSnoc(g, A, P, la, rows, finalState, raws, parser, defred, raw, row, rule);
      SumsSnoc(raws, raw, finalState);
      parser, defred, raws := parser + [row], defred + [rule], raws + [raw];
      SRtotal, RRtotal := SRtotal + sr, RRtotal + rr;
      i := i + 1;
    }
  }

  lemma NoRows(g: Packed, A: Automaton, P: Precedence, la: seq<nat>, LA: seq<set<nat>>, finalState: nat)
    requires Covers(P, g)
    ensures RowsSoFar(g, A, P, la, LA, finalState, [], [], [])
    ensures SumSR([], finalState, 0) == 0 && SumRR([], finalState, 0) == 0
  {}

  lemma {:induction false} SumsPrefix(raws: seq<seq<Action>>, raw: seq<Action>, finalState: nat, n: nat)
    requires n <= |raws|
    ensures SumSR(raws + [raw], finalState, n) == SumSR(raws, finalState, n)
    ensures SumRR(raws + [raw], finalState, n) == SumRR(raws, finalState, n)
  {
    if n > 0 {
      SumsPrefix(raws, raw, finalState, n - 1);
    }
  }

  lemma SumsSnoc(raws: seq<seq<Action>>, raw: seq<Action>, finalState: nat)
    ensures SumSR(raws + [raw], finalState, |raws| + 1) ==
        SumSR(raws, finalState, |raws|) + CountSR(raw, |raws| == finalState, |raw|)
    ensures SumRR(raws + [raw], finalState, |raws| + 1) ==
        SumRR(raws, finalState, |raws|) + CountRR(raw, |raws| == finalState, |raw|)
  {
    SumsPrefix(raws, raw, finalState, |raws|);
  }

  /** parse_actions, remove_conflicts and sole_reduction for one state. */
  method MakeRow(g: Packed, A: Automaton, P: Precedence, lookaheads: array<nat>, LAruleno: array<nat>, LA: array2<Word>,
                 finalState: nat, q: nat) returns (raw: seq<Action>, row: seq<Action>, rule: nat, sr: nat, rr: nat)
    requires g.WellFormed() && Canonical(g, A) && Covers(P, g) && q < |A.states|
    requires Layout(A, lookaheads[..], LAruleno[..]) && LA.Length0 == LAruleno.Length &&
        LA.Length1 == WordSize(g.ntokens)
    ensures RowOK(g, A, P, lookaheads[..], Rows(LA), finalState, q, raw, row, rule)
    ensures sr == CountSR(raw, q == finalState, |raw|) && rr == CountRR(raw, q == finalState, |raw|)
  {
    var shifts := GetShifts(g, A, P, q);
    raw := AddReductions(g, A, P, lookaheads, LAruleno, LA, q, shifts);
    RawFacts(g, A, P, lookaheads[..], Rows(LA), q, raw);
    row, sr, rr := ResolveRow(raw, q == finalState);
    forall a | a in row && a.code == Reduce
      ensures a.number > 0
    {
      var p :| 0 <= p < |row| && row[p] == a;
      assert raw[p] in raw;
    }
    rule := SoleReduction(row);
  }
}

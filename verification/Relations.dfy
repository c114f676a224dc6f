/** lalr.c, initialize_F to transpose: direct reads, and the reads, includes and lookback
    relations between the numbered transitions, as the source computes them. */
module Relations {
  import opened Reachability
  import opened BitRows
  import opened Grammar
  import opened Closure
  import opened LR0
  import opened Paths
  import opened GotoMap

  ghost predicate Setting(g: Packed, A: Automaton, gs: Gotos, nullable: seq<bool>) {
    && g.WellFormed() && Canonical(g, A) && GotosOK(g, A, gs) && |nullable| == g.nsyms
    && forall t :: 0 <= t < g.ntokens ==> !nullable[t]
  }

  ghost function SymbolOf(A: Automaton, gs: Gotos, n: nat): nat
    requires n < |gs.to| && gs.to[n] < |A.states|
  {
    A.states[gs.to[n]].accessing
  }

  /** Number n is the transition p -> q over the nonterminal X. */
  ghost predicate IsNumber(A: Automaton, gs: Gotos, n: nat, p: nat, X: nat, q: nat) {
    n < |gs.from| && n < |gs.to| && gs.from[n] == p && gs.to[n] == q && Goto(A, p, X, q)
  }

  /** Every number stands for one transition over a nonterminal. */
  lemma NumberIsGoto(g: Packed, A: Automaton, gs: Gotos, n: nat)
    requires GotosOK(g, A, gs) && n < |gs.from|
    ensures gs.to[n] < |A.states| && g.ntokens <= SymbolOf(A, gs, n) < g.nsyms
    ensures IsNumber(A, gs, n, gs.from[n], SymbolOf(A, gs, n), gs.to[n]) && InBlock(gs, SymbolOf(A, gs, n), n)
  {
    var X := BlockBelow(g, A, gs, n, g.nsyms);
    assert BlockOK(A, gs, X);
  }

  /** The tokens that can be shifted right after transition n. */
  ghost predicate Shifted(g: Packed, A: Automaton, gs: Gotos, n: nat, t: nat) {
    n < |gs.to| && t < g.ntokens && exists q: nat :: Goto(A, gs.to[n], t, q)
  }

  /** The end token is seeded at transition 0 alone. */
  ghost predicate DirectlyReads(g: Packed, A: Automaton, gs: Gotos, n: nat, t: nat) {
    Shifted(g, A, gs, n, t) || (n == 0 && t == 0)
  }

  /** Transition n reads transition m: m follows n over a nullable nonterminal. */
  ghost predicate Reads(g: Packed, A: Automaton, gs: Gotos, nullable: seq<bool>, n: nat, m: nat) {
    && n < |gs.from| && m < |gs.from| && n < |gs.to| && m < |gs.to|
    && gs.to[m] < |A.states| && gs.from[m] == gs.to[n]
    && SymbolOf(A, gs, m) < |nullable| && nullable[SymbolOf(A, gs, m)]
  }

  ghost function ReadsRel(g: Packed, A: Automaton, gs: Gotos, nullable: seq<bool>): Rel {
    (n: nat, m: nat) => Reads(g, A, gs, nullable, n, m)
  }

  /** Reading Xs from state p leads to state q. */
  ghost predicate Walks(A: Automaton, p: nat, Xs: seq<nat>, q: nat)
    decreases |Xs|, 1
  {
    if Xs == [] then p == q else exists m: nat :: WalksThrough(A, p, Xs, q, m)
  }

  ghost predicate WalksThrough(A: Automaton, p: nat, Xs: seq<nat>, q: nat, m: nat)
    requires Xs != []
    decreases |Xs|, 0
  {
    Walks(A, p, Xs[..|Xs| - 1], m) && Goto(A, m, Xs[|Xs| - 1], q)
  }

  lemma {:induction false} WalksUnique(g: Packed, A: Automaton, p: nat, Xs: seq<nat>, q: nat, q': nat)
    requires Canonical(g, A) && Walks(A, p, Xs, q) && Walks(A, p, Xs, q')
    ensures q == q'
    decreases |Xs|
  {
    if Xs != [] {
      var n := |Xs| - 1;
      var m: nat :| WalksThrough(A, p, Xs, q, m);
      var m': nat :| WalksThrough(A, p, Xs, q', m');
      WalksUnique(g, A, p, Xs[..n], m, m');
      GotoUnique(g, A, m, Xs[n], q, q');
    }
  }

  ghost predicate NullableFrom(nullable: seq<bool>, Xs: seq<nat>, k: nat) {
    forall m :: k <= m < |Xs| ==> Xs[m] < |nullable| && nullable[Xs[m]]
  }

  /** Rule r of the nonterminal of n, walked from the source of n, passes over transition m with
      only nullable symbols after it. */
  ghost predicate IncludesVia(g: Packed, A: Automaton, gs: Gotos, nullable: seq<bool>, m: nat, n: nat, r: nat)
    requires g.WellFormed()
  {
    && 3 <= r < |g.rlhs| && n < |gs.to| && m < |gs.to| && n < |gs.from| && m < |gs.from|
    && gs.to[n] < |A.states| && gs.to[m] < |A.states|
    && g.rlhs[r] == SymbolOf(A, gs, n)
    && exists k: nat :: PassesOver(g, A, gs, nullable, m, gs.from[n], r, k)
  }

  ghost predicate PassesOver(g: Packed, A: Automaton, gs: Gotos, nullable: seq<bool>, m: nat, p: nat, r: nat, k: nat)
    requires g.WellFormed() && 3 <= r < |g.rlhs|
  {
    && m < |gs.to| && m < |gs.from| && gs.to[m] < |A.states|
    && k < |g.Rhs(r)| && g.Rhs(r)[k] == SymbolOf(A, gs, m)
    && Walks(A, p, g.Rhs(r)[..k], gs.from[m]) && NullableFrom(nullable, g.Rhs(r), k + 1)
  }

  /** Transition m includes transition n. */
  ghost predicate Includes(g: Packed, A: Automaton, gs: Gotos, nullable: seq<bool>, m: nat, n: nat)
    requires g.WellFormed()
  {
    exists r: nat :: IncludesVia(g, A, gs, nullable, m, n, r)
  }

  ghost function IncludesRel(g: Packed, A: Automaton, gs: Gotos, nullable: seq<bool>): Rel
    requires g.WellFormed()
  {
    (m: nat, n: nat) => Includes(g, A, gs, nullable, m, n)
  }

  /** Reducing by r in state q can return to transition n. */
  ghost predicate Lookback(g: Packed, A: Automaton, gs: Gotos, q: nat, r: nat, n: nat)
    requires g.WellFormed()
  {
    && 3 <= r < |g.rlhs| && n < |gs.to| && n < |gs.from| && gs.to[n] < |A.states|
    && g.rlhs[r] == SymbolOf(A, gs, n) && Walks(A, gs.from[n], g.Rhs(r), q)
  }

  /** Transition 0 is the one over the goal symbol out of state 0. */
  lemma FirstGoto(g: Packed, A: Automaton, gs: Gotos)
    requires g.WellFormed() && Canonical(g, A) && GotosOK(g, A, gs)
    ensures |gs.from| > 0 && gs.from[0] == 0 && gs.to[0] < |A.states| && SymbolOf(A, gs, 0) == g.ntokens + 1
  {
    var goal := g.ntokens + 1;
    ClosureIsClosed(g, A.states[0].items);
    var q := GotoExists(g, A, 0, 1);
    assert BlockOK(A, gs, goal) && BlockOK(A, gs, g.ntokens);
    assert Numbered(gs, 0, goal, q);
    var n: nat :| NumberOf(gs, 0, goal, q, n);
    if gs.map_[g.ntokens + 1] > 0 {
      assert InBlock(gs, g.ntokens, 0);
      NeverStart(g, A, gs.from[0], gs.to[0]);
    }
    assert InBlock(gs, goal, 0);
    assert gs.from[0] <= gs.from[n];
  }

  lemma NeverStart(g: Packed, A: Automaton, p: nat, q: nat)
    requires g.WellFormed() && Canonical(g, A)
    ensures !Goto(A, p, g.ntokens, q)
  {
    if Goto(A, p, g.ntokens, q) {
      GotoItems(g, A, p, g.ntokens, q);
      assert KernelOK(g, A.states[q]);
      var j := A.states[q].items[0];
      assert j in A.states[q].items;
      var r := ItemHasRule(g, j - 1);
      ItemAt(g, j - 1, r);
    }
  }

  /** t is shifted by one of the first j entries of the row. */
  ghost predicate ShiftedBy(A: Automaton, row: seq<nat>, j: nat, t: nat) {
    exists k :: 0 <= k < j && k < |row| && row[k] < |A.states| && A.states[row[k]].accessing == t
  }

  lemma FrontIsShifted(g: Packed, A: Automaton, gs: Gotos, i: nat, j: nat, t: nat)
    requires Canonical(g, A) && i < |gs.to| && gs.to[i] < |A.states| && j <= |A.shifts[gs.to[i]]|
    requires forall k :: 0 <= k < |A.shifts[gs.to[i]]| ==>
               A.shifts[gs.to[i]][k] < |A.states| && (A.states[A.shifts[gs.to[i]][k]].accessing >= g.ntokens <==>
                   k >= j)
    ensures ShiftedBy(A, A.shifts[gs.to[i]], j, t) <==> Shifted(g, A, gs, i, t)
  {
    var row := A.shifts[gs.to[i]];
    if Shifted(g, A, gs, i, t) {
      var q: nat :| Goto(A, gs.to[i], t, q);
      var k :| 0 <= k < |row| && row[k] == q;
      assert k < j;
    }
    if ShiftedBy(A, row, j, t) {
      var k :| 0 <= k < j && A.states[row[k]].accessing == t;
      assert Goto(A, gs.to[i], t, row[k]);
    }
  }

  /** The loop over the tokens of the row. */
  method ReadFront(g: Packed, A: Automaton, F: array2<Word>, i: nat, q: nat) returns (j: nat)
    requires g.WellFormed() && Canonical(g, A) && q < |A.states| && i < F.Length0
    requires F.Length1 == WordSize(g.ntokens) && Rows(F)[i] == {}
    modifies F
    ensures forall a: nat :: a < F.Length0 && a != i ==> Rows(F)[a] == old(Rows(F)[a])
    ensures j <= |A.shifts[q]| && forall t: nat :: t in Rows(F)[i] <==> ShiftedBy(A, A.shifts[q], j, t)
    ensures forall k :: 0 <= k < j ==> A.shifts[q][k] < |A.states| && A.states[A.shifts[q][k]].accessing < g.ntokens
    ensures j < |A.shifts[q]| ==> A.shifts[q][j] < |A.states| && A.states[A.shifts[q][j]].accessing >= g.ntokens
  {
    var row := A.shifts[q];
    j := 0;
    while j < |row|
      invariant j <= |row|
      invariant forall a: nat :: a < F.Length0 && a != i ==> Rows(F)[a] == old(Rows(F)[a])
      invariant forall t: nat :: t in Rows(F)[i] <==> ShiftedBy(A, row, j, t)
      invariant forall k :: 0 <= k < j ==> row[k] < |A.states| && A.states[row[k]].accessing < g.ntokens
    {
      var symbol := EntrySymbol(g, A, q, j);
      if g.IsVar(symbol) {
        break;
      }
      SetBit(F, i, symbol);
      j := j + 1;
    }
  }

  /** The bits of the tokens at the front of a sorted shift row; on to the nonterminals. */
  method ReadTokens(g: Packed, A: Automaton, gs: Gotos, F: array2<Word>, i: nat) returns (j: nat)
    requires g.WellFormed() && Canonical(g, A) && GotosOK(g, A, gs) && i < |gs.from| == F.Length0
    requires F.Length1 == WordSize(g.ntokens) && Rows(F)[i] == {} && gs.to[i] < |A.states|
    modifies F
    ensures forall a: nat :: a < F.Length0 && a != i ==> Rows(F)[a] == old(Rows(F)[a])
    ensures forall t: nat :: t in Rows(F)[i] <==> Shifted(g, A, gs, i, t)
    ensures j <= |A.shifts[gs.to[i]]|
    ensures forall k :: 0 <= k < |A.shifts[gs.to[i]]| ==>
              A.shifts[gs.to[i]][k] < |A.states| && (A.states[A.shifts[gs.to[i]][k]].accessing >= g.ntokens <==> k >= j)
  {
    j := ReadFront(g, A, F, i, gs.to[i]);
    FrontIsAll(g, A, gs.to[i], j);
    hide ShiftedBy, Shifted;
    forall t: nat
      ensures t in Rows(F)[i] <==> Shifted(g, A, gs, i, t)
    {
      FrontIsShifted(g, A, gs, i, j, t);
    }
  }

  /** Rows are sorted: past the first nonterminal there are only nonterminals. */
  lemma FrontIsAll(g: Packed, A: Automaton, q: nat, j: nat)
    requires Canonical(g, A) && q < |A.states| && j <= |A.shifts[q]|
    requires forall k :: 0 <= k < j ==> A.shifts[q][k] < |A.states| && A.states[A.shifts[q][k]].accessing < g.ntokens
    requires j < |A.shifts[q]| ==> A.shifts[q][j] < |A.states| && A.states[A.shifts[q][j]].accessing >= g.ntokens
    ensures forall k :: 0 <= k < |A.shifts[q]| ==>
              A.shifts[q][k] < |A.states| && (A.states[A.shifts[q][k]].accessing >= g.ntokens <==> k >= j)
  {
    assert RowsOK(g, A.states, A.shifts, A.reductions, q);
  }

  /** R lists, per transition, exactly the transitions it reads. */
  ghost predicate ReadsLists(g: Packed, A: Automaton, gs: Gotos, nullable: seq<bool>, R: seq<seq<nat>>) {
    |R| == |gs.from| && forall n: nat, m: nat :: n < |R| ==> (m in R[n] <==> Reads(g, A, gs, nullable, n, m))
  }

  /** The reads edges of transition i: the nullable nonterminals of its shift row. */
  method ReadsEdges(g: Packed, A: Automaton, gs: Gotos, nullable: array<bool>, i: nat, start: nat)
    returns (edge: seq<nat>)
    requires Setting(g, A, gs, nullable[..]) && i < |gs.from| && gs.to[i] < |A.states| && start <= |A.shifts[gs.to[i]]|
    requires forall k :: 0 <= k < |A.shifts[gs.to[i]]| ==>
               A.shifts[gs.to[i]][k] < |A.states| && (A.states[A.shifts[gs.to[i]][k]].accessing >= g.ntokens <==>
                   k >= start)
    ensures forall m: nat :: m in edge <==> Reads(g, A, gs, nullable[..], i, m)
  {
    var stateno := gs.to[i];
    var row := A.shifts[stateno];
    edge := [];
    var j := start;
    while j < |row|
      invariant start <= j <= |row|
      invariant forall m: nat :: m in edge <==> ReadsInto(g, A, gs, nullable[..], i, m, row[start..j])
    {
      var symbol := EntrySymbol(g, A, stateno, j);
      assert row[start..j + 1] == row[start..j] + [row[j]];
      if nullable[symbol] {
        var m := MapGoto(g, A, gs, stateno, symbol, row[j]);
        ReadsNext(g, A, gs, nullable[..], i, row[start..j], symbol, row[j], m);
        edge := edge + [m];
      } else {
        ReadsNone(g, A, gs, nullable[..], i, row[start..j], symbol, row[j]);
      }
      j := j + 1;
    }
    assert row[start..j] == row[start..];
    ReadsAll(g, A, gs, nullable[..], i, start);
  }

  /** Transition i reads m, which enters one of the given states. */
  ghost predicate ReadsInto(g: Packed, A: Automaton, gs: Gotos, nullable: seq<bool>, i: nat, m: nat, states: seq<nat>) {
    Reads(g, A, gs, nullable, i, m) && gs.to[m] in states
  }

  /** A nullable entry of the shift row adds the one transition into it. */
  lemma ReadsNext(g: Packed, A: Automaton, gs: Gotos, nullable: seq<bool>, i: nat, states: seq<nat>, symbol: nat,
                  q: nat, m: nat)
    requires Setting(g, A, gs, nullable) && i < |gs.from| && q < |A.states| && A.states[q].accessing == symbol
    requires symbol < |nullable| && nullable[symbol] && NumberOf(gs, gs.to[i], symbol, q, m)
    requires forall n: nat :: InBlock(gs, symbol, n) && gs.from[n] == gs.to[i] ==> n == m
    ensures forall n: nat :: ReadsInto(g, A, gs, nullable, i, n, states + [q]) <==>
        ReadsInto(g, A, gs, nullable, i, n, states) || n == m
  {
    NumberIsGoto(g, A, gs, m);
    forall n: nat | Reads(g, A, gs, nullable, i, n) && gs.to[n] == q
      ensures n == m
    {
      NumberIsGoto(g, A, gs, n);
    }
  }

  lemma ReadsNone(g: Packed, A: Automaton, gs: Gotos, nullable: seq<bool>, i: nat, states: seq<nat>, symbol: nat,
                  q: nat)
    requires Setting(g, A, gs, nullable) && q < |A.states| && A.states[q].accessing == symbol
    requires symbol < |nullable| && !nullable[symbol]
    ensures forall n: nat :: ReadsInto(g, A, gs, nullable, i, n, states + [q]) <==>
        ReadsInto(g, A, gs, nullable, i, n, states)
  {}

  /** What a transition reads enters a state of the nonterminal part of the shift row. */
  lemma ReadsAll(g: Packed, A: Automaton, gs: Gotos, nullable: seq<bool>, i: nat, start: nat)
    requires Setting(g, A, gs, nullable) && i < |gs.from| && gs.to[i] < |A.states| && start <= |A.shifts[gs.to[i]]|
    requires forall k :: 0 <= k < |A.shifts[gs.to[i]]| ==>
               A.shifts[gs.to[i]][k] < |A.states| && (A.states[A.shifts[gs.to[i]][k]].accessing >= g.ntokens <==>
                   k >= start)
    ensures forall m: nat :: Reads(g, A, gs, nullable, i, m) ==>
        ReadsInto(g, A, gs, nullable, i, m, A.shifts[gs.to[i]][start..])
  {
    var row := A.shifts[gs.to[i]];
    forall m: nat | Reads(g, A, gs, nullable, i, m)
      ensures gs.to[m] in row[start..]
    {
      NumberIsGoto(g, A, gs, m);
      var k :| 0 <= k < |row| && row[k] == gs.to[m];
      assert row[start..][k - start] == gs.to[m];
    }
  }

  /** initialize_F, up to the call of digraph: F holds the direct reads, reads the edges. */
  method InitializeF(g: Packed, A: Automaton, gs: Gotos, nullable: array<bool>)
    returns (F: array2<Word>, reads_: seq<seq<nat>>)
    requires Setting(g, A, gs, nullable[..])
    ensures fresh(F) && F.Length0 == |gs.from| && F.Length1 == WordSize(g.ntokens)
    ensures forall n: nat, t: nat :: n < |gs.from| ==> (t in Rows(F)[n] <==> DirectlyReads(g, A, gs, n, t))
    ensures ReadsLists(g, A, gs, nullable[..], reads_)
  {
    var ngotos := |gs.from|;
    F := NewMatrix(ngotos, g.ntokens);
    reads_ := [];
    var i := 0;
    while i < ngotos
      invariant i <= ngotos && |reads_| == i
      invariant forall n: nat :: i <= n < ngotos ==> Rows(F)[n] == {}
      invariant forall n: nat, t: nat :: n < i ==> (t in Rows(F)[n] <==> Shifted(g, A, gs, n, t))
      invariant forall n: nat, m: nat :: n < i ==> (m in reads_[n] <==> Reads(g, A, gs, nullable[..], n, m))
    {
      NumberIsGoto(g, A, gs, i);
      var j := ReadTokens(g, A, gs, F, i);
      var edge := ReadsEdges(g, A, gs, nullable, i, j);
      reads_ := reads_ + [edge];
      i := i + 1;
    }
    FirstGoto(g, A, gs);
    SetBit(F, 0, 0);
  }

  /** states records the walk of rule r from state p: one state per dot of the rule. */
  ghost predicate RuleWalk(g: Packed, A: Automaton, p: nat, r: nat, states: seq<nat>)
    requires g.WellFormed() && 3 <= r < |g.rlhs|
  {
    && |states| == |g.Rhs(r)| + 1 && states[0] == p
    && (forall k :: 0 <= k < |states| ==> StandsAt(g, A, p, r, states[k], k))
    && forall k :: 0 <= k < |g.Rhs(r)| ==> Goto(A, states[k], g.Rhs(r)[k], states[k + 1])
  }

  ghost predicate StandsAt(g: Packed, A: Automaton, p: nat, r: nat, q: nat, k: nat)
    requires g.WellFormed() && 3 <= r < |g.rlhs| && k <= |g.Rhs(r)|
  {
    q < |A.states| && Walks(A, p, g.Rhs(r)[..k], q) && g.rrhs[r] + k in ItemsOf(g, A, q)
  }

  /** The search of build_relations for the shift over a symbol; it is there. */
  method FindShift(g: Packed, A: Automaton, p: nat, symbol: nat, ghost target: nat) returns (stateno: nat)
    requires g.WellFormed() && Canonical(g, A) && Goto(A, p, symbol, target)
    ensures stateno == target
  {
    var row := A.shifts[p];
    stateno := p;
    var j := 0;
    while j < |row|
      invariant j <= |row| && forall k :: 0 <= k < j ==> row[k] != target
    {
      stateno := row[j];
      var s := EntrySymbol(g, A, p, j);
      if s == symbol {
        GotoUnique(g, A, p, symbol, stateno, target);
        return;
      }
      j := j + 1;
    }
  }

  lemma WalkOn(g: Packed, A: Automaton, p: nat, r: nat, q: nat, k: nat) returns (q': nat)
    requires g.WellFormed() && Canonical(g, A) && 3 <= r < |g.rlhs| && k < |g.Rhs(r)| && StandsAt(g, A, p, r, q, k)
    ensures Goto(A, q, g.Rhs(r)[k], q') && StandsAt(g, A, p, r, q', k + 1)
  {
    assert g.RuleShape(r);
    RrhsAscends(g, 3, r);
    q' := GotoExists(g, A, q, g.rrhs[r] + k);
    assert g.Rhs(r)[..k + 1][..k] == g.Rhs(r)[..k];
    assert WalksThrough(A, p, g.Rhs(r)[..k + 1], q', q);
  }

  /** The forward walk over a right-hand side. */
  method WalkRule(g: Packed, A: Automaton, state1: nat, r: nat) returns (states: seq<nat>)
    requires g.WellFormed() && Canonical(g, A) && 3 <= r < |g.rlhs|
    requires state1 < |A.states| && g.rrhs[r] in ItemsOf(g, A, state1)
    ensures RuleWalk(g, A, state1, r, states)
  {
    hide Canonical, Goto, StandsAt, ItemsOf;
    assert g.RuleShape(r);
    WalkStarts(g, A, state1, r);
    states := [state1];
    var stateno := state1;
    var rp := g.rrhs[r];
    while g.ritem[rp] >= 0
      invariant InRule(g, rp, r) && |states| == rp - g.rrhs[r] + 1 && states[0] == state1
      invariant stateno == states[|states| - 1] && rp - g.rrhs[r] <= |g.Rhs(r)|
      invariant forall k :: 0 <= k < |states| ==> StandsAt(g, A, state1, r, states[k], k)
      invariant forall k :: 0 <= k < |states| - 1 ==> Goto(A, states[k], g.Rhs(r)[k], states[k + 1])
      decreases g.rrhs[r + 1] - rp
    {
      ItemAt(g, rp, r);
      var symbol2 := g.ritem[rp];
      ghost var k := rp - g.rrhs[r];
      ghost var q := WalkOn(g, A, state1, r, stateno, k);
      stateno := FindShift(g, A, stateno, symbol2, q);
      states := states + [stateno];
      rp := rp + 1;
    }
    ItemAt(g, rp, r);
  }

  lemma WalkStarts(g: Packed, A: Automaton, p: nat, r: nat)
    requires g.WellFormed() && p < |A.states| && 3 <= r < |g.rlhs| && g.rrhs[r] in ItemsOf(g, A, p)
    ensures StandsAt(g, A, p, r, p, 0)
  {}

  /** The numbers passed over by rule r from state p at a dot at or after k. */
  ghost predicate PassedFrom(g: Packed, A: Automaton, gs: Gotos, nullable: seq<bool>, m: nat, p: nat, r: nat, lo: nat)
    requires g.WellFormed() && 3 <= r < |g.rlhs|
  {
    exists k: nat :: lo <= k && PassesOver(g, A, gs, nullable, m, p, r, k)
  }

  lemma BeforeRule(g: Packed, r: nat)
    requires g.WellFormed() && 3 <= r < |g.rlhs|
    ensures 0 < g.rrhs[r] <= |g.ritem| && g.ritem[g.rrhs[r] - 1] < 0
  {
    assert g.RuleShape(r - 1) && g.RuleShape(r);
  }

  /** The backward loop: a number for the last symbol, and on while nonterminals are nullable. */
  method BackRule(g: Packed, A: Automaton, gs: Gotos, nullable: array<bool>, r: nat, states: seq<nat>)
    returns (edge: seq<nat>)
    requires Setting(g, A, gs, nullable[..]) && 3 <= r < |g.rlhs|
    requires |states| > 0 && RuleWalk(g, A, states[0], r, states)
    ensures forall m: nat :: m in edge <==> PassedFrom(g, A, gs, nullable[..], m, states[0], r, 0)
  {
    hide PassesOver, NonePassedBelow, PassedFrom, Canonical, GotosOK, NullableFrom, Packed.WellFormed, Packed.Rhs;
    edge := [];
    ghost var nul := nullable[..];
    var length := |states| - 1;
    BackStart(g, A, gs, nul, r, states[0], length);
    var rp := g.rrhs[r] + length;
    var done := false;
    while !done
      invariant 0 <= length <= |g.Rhs(r)|
      invariant !done ==> rp == g.rrhs[r] + length && NullableFrom(nul, g.Rhs(r), length)
      invariant forall m: nat :: m in edge <==> PassedFrom(g, A, gs, nul, m, states[0], r, length)
      invariant done ==> NonePassedBelow(g, A, gs, nul, states[0], r, length)
      decreases length, if done then 0 else 1
    {
      done := true;
      rp := rp - 1;
      RhsBefore(g, r, length);
      if g.IsVar(g.ritem[rp]) {
        length := length - 1;
        var m := MapGoto(g, A, gs, states[length], g.ritem[rp], states[length + 1]);
        BackStep(g, A, gs, nul, r, states, length, m);
        edge := edge + [m];
        if nullable[g.ritem[rp]] && length > 0 {
          done := false;
        }
      } else {
        NoFurther(g, A, gs, nul, r, states[0], length);
      }
    }
    NonePassedMeansAll(g, A, gs, nul, states[0], r, length);
  }

  /** Past the end of the rule nothing is passed over. */
  lemma BackStart(g: Packed, A: Automaton, gs: Gotos, nullable: seq<bool>, r: nat, p: nat, k: nat)
    requires g.WellFormed() && 3 <= r < |g.rlhs| && k == |g.Rhs(r)| && |nullable| == g.nsyms
    ensures r < |g.rrhs| && NullableFrom(nullable, g.Rhs(r), k) &&
        forall m: nat :: !PassedFrom(g, A, gs, nullable, m, p, r, k)
  {}

  /** The item before dot k: the symbol there, or the marker of the rule before. */
  lemma RhsBefore(g: Packed, r: nat, k: nat)
    requires g.WellFormed() && 3 <= r < |g.rlhs| && k <= |g.Rhs(r)|
    ensures 0 < g.rrhs[r] && g.rrhs[r] + k <= |g.ritem|
    ensures g.IsVar(g.ritem[g.rrhs[r] + k - 1]) ==> k > 0
    ensures k > 0 ==> g.ritem[g.rrhs[r] + k - 1] == g.Rhs(r)[k - 1] && g.Rhs(r)[k - 1] < g.nsyms
  {
    BeforeRule(g, r);
    assert g.RuleShape(r);
  }

  ghost predicate NonePassedBelow(g: Packed, A: Automaton, gs: Gotos, nullable: seq<bool>, p: nat, r: nat, k: nat)
    requires g.WellFormed() && 3 <= r < |g.rlhs|
  {
    forall m: nat, j: nat :: j < k ==> !PassesOver(g, A, gs, nullable, m, p, r, j)
  }

  lemma NonePassedMeansAll(g: Packed, A: Automaton, gs: Gotos, nullable: seq<bool>, p: nat, r: nat, k: nat)
    requires g.WellFormed() && 3 <= r < |g.rlhs| && NonePassedBelow(g, A, gs, nullable, p, r, k)
    ensures forall m: nat :: PassedFrom(g, A, gs, nullable, m, p, r, k) <==> PassedFrom(g, A, gs, nullable, m, p, r, 0)
  {
    forall m: nat | PassedFrom(g, A, gs, nullable, m, p, r, 0)
      ensures PassedFrom(g, A, gs, nullable, m, p, r, k)
    {
      var j: nat :| PassesOver(g, A, gs, nullable, m, p, r, j);
      assert j >= k;
    }
  }

  /** The one number passed over at dot k. */
  lemma BackStep(g: Packed, A: Automaton, gs: Gotos, nullable: seq<bool>, r: nat, states: seq<nat>, k: nat, m: nat)
    requires Setting(g, A, gs, nullable) && 3 <= r < |g.rlhs| && k < |g.Rhs(r)|
    requires |states| > 0 && RuleWalk(g, A, states[0], r, states) && g.IsVar(g.Rhs(r)[k])
    requires NumberOf(gs, states[k], g.Rhs(r)[k], states[k + 1], m) && NullableFrom(nullable, g.Rhs(r), k + 1)
    requires forall n: nat :: InBlock(gs, g.Rhs(r)[k], n) && gs.from[n] == states[k] ==> n == m
    ensures forall n: nat :: PassesOver(g, A, gs, nullable, n, states[0], r, k) <==> n == m
    ensures forall n: nat :: PassedFrom(g, A, gs, nullable, n, states[0], r, k) <==>
              n == m || PassedFrom(g, A, gs, nullable, n, states[0], r, k + 1)
    ensures !nullable[g.Rhs(r)[k]] || k == 0 ==> NonePassedBelow(g, A, gs, nullable, states[0], r, k)
    ensures nullable[g.Rhs(r)[k]] ==> NullableFrom(nullable, g.Rhs(r), k)
  {
    assert StandsAt(g, A, states[0], r, states[k], k);
    NumberIsGoto(g, A, gs, m);
    assert PassesOver(g, A, gs, nullable, m, states[0], r, k);
    forall n: nat | PassesOver(g, A, gs, nullable, n, states[0], r, k)
      ensures n == m
    {
      NumberIsGoto(g, A, gs, n);
      WalksUnique(g, A, states[0], g.Rhs(r)[..k], states[k], gs.from[n]);
    }
  }

  /** Nothing is passed over before a token or at the start of the rule. */
  lemma NoFurther(g: Packed, A: Automaton, gs: Gotos, nullable: seq<bool>, r: nat, p: nat, k: nat)
    requires Setting(g, A, gs, nullable) && 3 <= r < |g.rlhs| && k <= |g.Rhs(r)|
    requires k > 0 ==> g.Rhs(r)[k - 1] < g.ntokens
    ensures NonePassedBelow(g, A, gs, nullable, p, r, k)
  {
    forall m: nat, j: nat | j < k && PassesOver(g, A, gs, nullable, m, p, r, j)
      ensures false
    {
      NumberIsGoto(g, A, gs, m);
    }
  }
}

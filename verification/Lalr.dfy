/** lalr.c, the whole stage: lookback lists, transposed includes, and the lookahead sets. */
module Lalr {
  import opened Reachability
  import opened BitRows
  import opened Grammar
  import opened Closure
  import opened LR0
  import opened Paths
  import opened Buckets
  import opened GotoMap
  import opened Relations
  import opened DigraphPass

  /** Every vertex numbers its targets below n. */
  ghost predicate Within(R: seq<seq<nat>>, n: nat) {
    forall i, k :: 0 <= i < |R| && 0 <= k < |R[i]| ==> R[i][k] < n
  }

  /** The edges of the first n lists, each keyed by its target. */
  ghost function EdgesOf(R: seq<seq<nat>>, n: nat): seq<(nat, nat)>
    requires n <= |R|
  {
    if n == 0 then [] else EdgesOf(R, n - 1) + RowEdges(R[n - 1], n - 1, |R[n - 1]|)
  }

  ghost function RowEdges(row: seq<nat>, i: nat, k: nat): seq<(nat, nat)>
    requires k <= |row|
  {
    if k == 0 then [] else RowEdges(row, i, k - 1) + [(row[k - 1], i)]
  }

  lemma {:induction false} InRowEdges(row: seq<nat>, i: nat, k: nat, e: (nat, nat))
    requires k <= |row|
    ensures e in RowEdges(row, i, k) <==> e.1 == i && e.0 in row[..k]
  {
    if k > 0 {
      InRowEdges(row, i, k - 1, e);
      assert row[..k] == row[..k - 1] + [row[k - 1]];
    }
  }

  lemma {:induction false} InEdges(R: seq<seq<nat>>, n: nat, e: (nat, nat))
    requires n <= |R|
    ensures e in EdgesOf(R, n) <==> e.1 < n && e.0 in R[e.1]
  {
    hide RowEdges;
    if n > 0 {
      InEdges(R, n - 1, e);
      InRowEdges(R[n - 1], n - 1, |R[n - 1]|, e);
      assert R[n - 1][..|R[n - 1]|] == R[n - 1];
    }
  }

  lemma {:induction false} EdgesPrefix(R: seq<seq<nat>>, n: nat, k: nat)
    requires n < |R| && k <= |R[n]|
    ensures EdgesOf(R, n) + RowEdges(R[n], n, k) <= EdgesOf(R, |R|)
    decreases |R| - n, |R[n]| - k
  {
    if k < |R[n]| {
      EdgesPrefix(R, n, k + 1);
    } else if n + 1 < |R| {
      EdgesPrefix(R, n + 1, 0);
      assert EdgesOf(R, n + 1) + RowEdges(R[n + 1], n + 1, 0) == EdgesOf(R, n + 1);
    }
  }

  /** The counting pass of transpose. */
  method CountEdges(R: seq<seq<nat>>, n: nat) returns (nedges: array<nat>)
    requires |R| == n && Within(R, n)
    ensures fresh(nedges) && nedges.Length == n
    ensures forall j: nat :: j < n ==> nedges[j] == |Bucket(EdgesOf(R, n), j)|
  {
    hide EdgesOf, Bucket, Within;
    nedges := new nat[n](_ => 0);
    NoEdges(R);
    var i := 0;
    while i < n
      invariant i <= n && forall j: nat :: j < n ==> nedges[j] == |Bucket(EdgesOf(R, i), j)|
    {
      CountRowEdges(R, n, i, nedges);
      i := i + 1;
    }
  }

  lemma NoEdges(R: seq<seq<nat>>)
    ensures forall j: nat :: Bucket(EdgesOf(R, 0), j) == []
  {}

  /** The edges of one row, counted by their ends. */
  method CountRowEdges(R: seq<seq<nat>>, n: nat, i: nat, nedges: array<nat>)
    requires |R| == n && Within(R, n) && i < n && nedges.Length == n
    requires forall j: nat :: j < n ==> nedges[j] == |Bucket(EdgesOf(R, i), j)|
    modifies nedges
    ensures forall j: nat :: j < n ==> nedges[j] == |Bucket(EdgesOf(R, i + 1), j)|
  {
    hide Bucket;
    var sp := 0;
    ghost var before := EdgesOf(R, i);
    assert before + RowEdges(R[i], i, 0) == before;
    while sp < |R[i]|
      invariant sp <= |R[i]|
      invariant forall j: nat :: j < n ==> nedges[j] == |Bucket(before + RowEdges(R[i], i, sp), j)|
    {
      EdgeStep(R[i], i, sp, before);
      nedges[R[i][sp]] := nedges[R[i][sp]] + 1;
      sp := sp + 1;
    }
  }

  lemma EdgeStep(row: seq<nat>, i: nat, k: nat, before: seq<(nat, nat)>)
    requires k < |row|
    ensures before + RowEdges(row, i, k + 1) == before + RowEdges(row, i, k) + [(row[k], i)]
    ensures forall j: nat :: Bucket(before + RowEdges(row, i, k + 1), j) ==
              Bucket(before + RowEdges(row, i, k), j) + (if row[k] == j then [i] else [])
  {
    var s := before + RowEdges(row, i, k);
    assert before + RowEdges(row, i, k + 1) == s + [(row[k], i)];
    forall j: nat
      ensures Bucket(s + [(row[k], i)], j) == Bucket(s, j) + (if row[k] == j then [i] else [])
    {
      BucketSnoc(s, (row[k], i), j);
    }
  }

  /** Row j holds the sources stored so far, in the first places of its full length. */
  ghost predicate RowFilled(row: seq<int>, b: seq<nat>, full: nat) {
    |b| <= full == |row| && forall k :: 0 <= k < |b| ==> row[k] == b[k]
  }

  /** transpose: the list of j becomes the sources of j, in order, in exactly counted storage. */
  method Transpose(R: seq<seq<nat>>, n: nat) returns (newR: seq<seq<nat>>)
    requires |R| == n && Within(R, n)
    ensures |newR| == n && forall j: nat :: j < n ==> newR[j] == Bucket(EdgesOf(R, n), j)
  {
    var nedges := CountEdges(R, n);
    ghost var all := EdgesOf(R, n);
    var rows := new seq<int>[n](i requires 0 <= i < nedges.Length reads nedges => seq(nedges[i], _ => -1));
    var temp := new nat[n](_ => 0);
    assert forall j: nat :: j < n ==> rows[j] == seq(nedges[j], _ => -1);
    ghost var none: seq<(nat, nat)> := [];
    assert forall j: nat :: Bucket(none, j) == [];
    TransposeRows(R, n, rows, temp);
    newR := Finished(rows, all);
  }

  /** The pass over the rows. */
  method TransposeRows(R: seq<seq<nat>>, n: nat, rows: array<seq<int>>, temp: array<nat>)
    requires |R| == n && Within(R, n) && rows.Length == temp.Length == n
    requires Filling(EdgesOf(R, n), EdgesOf(R, 0), rows[..], temp[..])
    modifies rows, temp
    ensures Filling(EdgesOf(R, n), EdgesOf(R, n), rows[..], temp[..])
  {
    hide Filling, Within;
    var i := 0;
    while i < n
      invariant i <= n && Filling(EdgesOf(R, n), EdgesOf(R, i), rows[..], temp[..])
    {
      TransposeRow(R, n, i, rows, temp);
      i := i + 1;
    }
  }

  /** The bucket of the next edge still has room for it. */
  lemma EdgeRoom(R: seq<seq<nat>>, i: nat, k: nat)
    requires i < |R| && k < |R[i]|
    ensures |Bucket(EdgesOf(R, i) + RowEdges(R[i], i, k), R[i][k])| < |Bucket(EdgesOf(R, |R|), R[i][k])|
  {
    var s := EdgesOf(R, i) + RowEdges(R[i], i, k);
    var all := EdgesOf(R, |R|);
    EdgesPrefix(R, i, k + 1);
    assert EdgesOf(R, i) + RowEdges(R[i], i, k + 1) == s + [(R[i][k], i)];
    assert all[..|s|] == s && all[|s|] == (R[i][k], i);
    BucketRoom(all, |s|);
  }

  /** Every row is filled with, and every cursor stands after, the sources met in s. */
  ghost predicate Filling(all: seq<(nat, nat)>, s: seq<(nat, nat)>, rows: seq<seq<int>>, temp: seq<nat>) {
    && |rows| == |temp|
    && forall j: nat :: j < |rows| ==> RowFilled(rows[j], Bucket(s, j), |Bucket(all, j)|) && temp[j] == |Bucket(s, j)|
  }

  lemma FillStep(all: seq<(nat, nat)>, s: seq<(nat, nat)>, rows: seq<seq<int>>, temp: seq<nat>, e: (nat, nat))
    requires Filling(all, s, rows, temp) && e.0 < |rows| && |Bucket(s, e.0)| < |Bucket(all, e.0)|
    ensures temp[e.0] < |rows[e.0]|
    ensures Filling(all, s + [e], rows[e.0 := rows[e.0][temp[e.0] := e.1]], temp[e.0 := temp[e.0] + 1])
  {
    assert RowFilled(rows[e.0], Bucket(s, e.0), |Bucket(all, e.0)|);
    forall j: nat | j < |rows|
      ensures Bucket(s + [e], j) == Bucket(s, j) + (if e.0 == j then [e.1] else [])
    {
      BucketSnoc(s, e, j);
    }
  }

  method TransposeRow(R: seq<seq<nat>>, n: nat, i: nat, rows: array<seq<int>>, temp: array<nat>)
    requires |R| == n && Within(R, n) && i < n && rows.Length == temp.Length == n
    requires Filling(EdgesOf(R, n), EdgesOf(R, i), rows[..], temp[..])
    modifies rows, temp
    ensures Filling(EdgesOf(R, n), EdgesOf(R, i + 1), rows[..], temp[..])
  {
    hide Filling, RowFilled;
    var sp := 0;
    ghost var all := EdgesOf(R, n);
    ghost var s := EdgesOf(R, i);
    while sp < |R[i]|
      invariant sp <= |R[i]| && s == EdgesOf(R, i) + RowEdges(R[i], i, sp)
      invariant Filling(all, s, rows[..], temp[..])
    {
      var j := R[i][sp];
      EdgeRoom(R, i, sp);
      FillStep(all, s, rows[..], temp[..], (j, i));
      PutEdge(rows, temp, j, i);
      s := s + [(j, i)];
      sp := sp + 1;
    }
  }

  /** *temp_R[j]++ = i. */
  method PutEdge(rows: array<seq<int>>, temp: array<nat>, j: nat, i: nat)
    requires j < rows.Length == temp.Length && temp[j] < |rows[j]|
    modifies rows, temp
    ensures rows[..] == old(rows[..])[j := old(rows[j])[old(temp[j]) := i]]
    ensures temp[..] == old(temp[..])[j := old(temp[j]) + 1]
  {
    rows[j] := rows[j][temp[j] := i];
    temp[j] := temp[j] + 1;
  }

  /** The filled rows read back: the places hold natural numbers only. */
  method Finished(rows: array<seq<int>>, ghost all: seq<(nat, nat)>) returns (newR: seq<seq<nat>>)
    requires forall j: nat :: j < rows.Length ==> RowFilled(rows[j], Bucket(all, j), |Bucket(all, j)|)
    ensures |newR| == rows.Length && forall j: nat :: j < rows.Length ==> newR[j] == Bucket(all, j)
  {
    newR := [];
    var j := 0;
    while j < rows.Length
      invariant j <= rows.Length && |newR| == j && forall k: nat :: k < j ==> newR[k] == Bucket(all, k)
    {
      assert RowFilled(rows[j], Bucket(all, j), |Bucket(all, j)|);
      var row: seq<nat> := seq(|rows[j]|, k requires 0 <= k < |rows[j]| && rows[j][k] >= 0 reads rows => rows[j][k]);
      newR := newR + [row];
      j := j + 1;
    }
  }

  /** Transposition turns every edge round and adds none. */
  lemma TransposeTurns(R: seq<seq<nat>>, j: nat, i: nat)
    ensures i in Bucket(EdgesOf(R, |R|), j) <==> i < |R| && j in R[i]
  {
    InBucket(EdgesOf(R, |R|), j, i);
    InEdges(R, |R|, (j, i));
  }

  /** Slot la[q] + k of the lookahead tables is the k-th reduction of state q. */
  ghost predicate Layout(A: Automaton, la: seq<nat>, ruleno: seq<nat>) {
    && |A.reductions| == |A.states| && |la| == |A.states| + 1 && la[0] == 0 && |ruleno| == la[|A.states|]
    && (forall q :: 0 <= q < |A.states| ==> la[q + 1] == la[q] + |A.reductions[q]|)
    && (forall q, q' :: 0 <= q <= q' <= |A.states| ==> la[q] <= la[q'])
    && (forall q :: 0 <= q < |A.states| ==> SlotsHold(ruleno, la[q], A.reductions[q]))
  }

  /** The slots from x on hold the given rules. */
  ghost predicate SlotsHold(ruleno: seq<nat>, x: nat, rules: seq<nat>) {
    x + |rules| <= |ruleno| && forall k :: 0 <= k < |rules| ==> ruleno[x + k] == rules[k]
  }

  /** initialize_LA: the running totals of the reduction counts and the rule of every slot. */
  method InitializeLA(A: Automaton) returns (lookaheads: array<nat>, LAruleno: array<nat>)
    requires |A.reductions| == |A.states|
    ensures fresh(lookaheads) && fresh(LAruleno) && Layout(A, lookaheads[..], LAruleno[..])
  {
    var nstates := |A.states|;
    lookaheads := new nat[nstates + 1](_ => 0);
    var k := 0;
    var i := 0;
    while i < nstates
      invariant i <= nstates && (i > 0 ==> lookaheads[0] == 0)
      invariant forall q :: 0 <= q < i ==>
          lookaheads[q] <= k && k == (if q + 1 == i then lookaheads[q] + |A.reductions[q]| else k)
      invariant forall q :: 0 <= q < i - 1 ==> lookaheads[q + 1] == lookaheads[q] + |A.reductions[q]|
      invariant forall q, q' :: 0 <= q <= q' < i ==> lookaheads[q] <= lookaheads[q']
      invariant i == 0 ==> k == 0
    {
      lookaheads[i] := k;
      k := k + |A.reductions[i]|;
      i := i + 1;
    }
    lookaheads[nstates] := k;
    LAruleno := new nat[k](_ => 0);
    k := 0;
    i := 0;
    ghost var la := lookaheads[..];
    while i < nstates
      invariant i <= nstates && k == la[i] && lookaheads[..] == la
      invariant forall q :: 0 <= q < i ==> SlotsHold(LAruleno[..], la[q], A.reductions[q])
    {
      forall q | 0 <= q < i
        ensures la[q] + |A.reductions[q]| <= la[i]
      {
        assert la[q + 1] <= la[i];
      }
      k := FillRules(A, la, LAruleno, i, k);
      i := i + 1;
    }
  }

  method FillRules(A: Automaton, ghost la: seq<nat>, LAruleno: array<nat>, i: nat, k0: nat) returns (k: nat)
    requires i < |A.states| == |A.reductions| && |la| == |A.states| + 1 && k0 == la[i]
    requires la[i + 1] == la[i] + |A.reductions[i]| && la[i + 1] <= LAruleno.Length
    requires forall q :: 0 <= q < i ==> la[q] + |A.reductions[q]| <= la[i]
    requires forall q :: 0 <= q < i ==> SlotsHold(LAruleno[..], la[q], A.reductions[q])
    modifies LAruleno
    ensures k == la[i + 1]
    ensures forall q :: 0 <= q <= i ==> SlotsHold(LAruleno[..], la[q], A.reductions[q])
  {
    k := k0;
    var j := 0;
    while j < |A.reductions[i]|
      invariant j <= |A.reductions[i]| && k == k0 + j
      invariant forall x :: 0 <= x < la[i] ==> LAruleno[x] == old(LAruleno[x])
      invariant forall m :: 0 <= m < j ==> LAruleno[la[i] + m] == A.reductions[i][m]
    {
      LAruleno[k] := A.reductions[i][j];
      k := k + 1;
      j := j + 1;
    }
    forall q | 0 <= q < i
      ensures SlotsHold(LAruleno[..], la[q], A.reductions[q])
    {
      assert SlotsHold(old(LAruleno[..]), la[q], A.reductions[q]);
      assert forall m :: 0 <= m < |A.reductions[q]| ==> old(LAruleno[..])[la[q] + m] == A.reductions[q][m];
    }
  }

  /** The entry n belongs on the list of rule r in state q once the numbers below i, and the
      given rules of number i, have been traced. */
  ghost predicate Traced(g: Packed, A: Automaton, gs: Gotos, q: nat, r: nat, n: nat, i: nat, rules: seq<nat>)
    requires g.WellFormed()
  {
    Lookback(g, A, gs, q, r, n) && (n < i || (n == i && r in rules))
  }

  ghost predicate LookbackLists(g: Packed, A: Automaton, gs: Gotos, la: seq<nat>, lookback: seq<seq<nat>>, i: nat,
                                rules: seq<nat>)
    requires g.WellFormed() && |A.reductions| == |A.states| && |la| == |A.states| + 1
  {
    forall q: nat, k: nat :: q < |A.states| && k < |A.reductions[q]| ==> SlotOK(g, A, gs, la, lookback, q, k, i, rules)
  }

  ghost predicate SlotOK(g: Packed, A: Automaton, gs: Gotos, la: seq<nat>, lookback: seq<seq<nat>>, q: nat, k: nat,
                         i: nat, rules: seq<nat>)
    requires g.WellFormed() && |A.reductions| == |A.states| && |la| == |A.states| + 1
    requires q < |A.states| && k < |A.reductions[q]|
  {
    && la[q] + k < |lookback|
    && forall n: nat :: n in lookback[la[q] + k] <==> Traced(g, A, gs, q, A.reductions[q][k], n, i, rules)
  }

  /** add_lookback_edge: the rule is found among the reductions of the state. */
  method AddLookbackEdge(A: Automaton, lookaheads: array<nat>, LAruleno: array<nat>, lookback: array<seq<nat>>,
                         stateno: nat, ruleno: nat, gotono: nat, ghost place: nat)
    requires Layout(A, lookaheads[..], LAruleno[..]) && lookback.Length == LAruleno.Length
    requires stateno < |A.states| && place < |A.reductions[stateno]| && A.reductions[stateno][place] == ruleno
    requires Ascending(A.reductions[stateno])
    modifies lookback
    ensures lookaheads[stateno] + place < lookback.Length
    ensures lookback[..] == old(lookback[..])[lookaheads[stateno] + place := [gotono] +
        old(lookback[lookaheads[stateno] + place])]
  {
    var i := lookaheads[stateno];
    var k := lookaheads[stateno + 1];
    var found := false;
    assert SlotsHold(LAruleno[..], lookaheads[..][stateno], A.reductions[stateno]);
    assert LAruleno[..][lookaheads[stateno] + place] == ruleno;
    while !found && i < k
      invariant lookaheads[stateno] <= i <= lookaheads[stateno] + place < k
      invariant found ==> i == lookaheads[stateno] + place
      decreases k - i, if found then 0 else 1
    {
      assert LAruleno[..][lookaheads[stateno] + (i - lookaheads[stateno])] ==
          A.reductions[stateno][i - lookaheads[stateno]];
      if LAruleno[i] == ruleno {
        found := true;
      } else {
        i := i + 1;
      }
    }
    lookback[i] := [gotono] + lookback[i];
  }

  /** The rules of a shifted nonterminal start in the state it is shifted from. */
  lemma RulePredicted(g: Packed, A: Automaton, p: nat, X: nat, q: nat, r: nat)
    requires g.WellFormed() && Canonical(g, A) && Goto(A, p, X, q) && 3 <= r < |g.rlhs| && g.rlhs[r] == X
    ensures p < |A.states| && g.rrhs[r] in ItemsOf(g, A, p)
  {
    GotoItems(g, A, p, X, q);
    assert KernelOK(g, A.states[q]);
    var j := A.states[q].items[0];
    assert j in A.states[q].items;
    assert MovedItem(g, ItemsOf(g, A, p), X, j);
    ClosureIsClosed(g, A.states[p].items);
    assert Predicted(g, X, g.rrhs[r]);
    assert ItemRel(g)(j - 1, g.rrhs[r]);
  }

  /** Where a rule is walked to its end it is one of the reductions. */
  lemma RuleReduces(g: Packed, A: Automaton, p: nat, r: nat, q: nat) returns (k: nat)
    requires g.WellFormed() && Canonical(g, A) && 3 <= r < |g.rlhs| && StandsAt(g, A, p, r, q, |g.Rhs(r)|)
    ensures q < |A.states| && k < |A.reductions[q]| && A.reductions[q][k] == r
  {
    assert g.RuleShape(r);
    assert RowsOK(g, A.states, A.shifts, A.reductions, q);
    var i := g.rrhs[r] + |g.Rhs(r)|;
    assert i in ItemsOf(g, A, q) && g.ritem[i] + r == 0;
    assert CompleteIn(g, ItemsOf(g, A, q), r);
    assert r in A.reductions[q];
    k :| 0 <= k < |A.reductions[q]| && A.reductions[q][k] == r;
  }

  /** Some traced rule of number i passes over m. */
  ghost predicate EdgeAmong(g: Packed, A: Automaton, gs: Gotos, nullable: seq<bool>, m: nat, p: nat, rules: seq<nat>)
    requires g.WellFormed()
  {
    exists r: nat :: r in rules && 3 <= r < |g.rlhs| && PassedFrom(g, A, gs, nullable, m, p, r, 0)
  }

  lemma EdgeAmongSnoc(g: Packed, A: Automaton, gs: Gotos, nullable: seq<bool>, m: nat, p: nat, rules: seq<nat>, r: nat)
    requires g.WellFormed() && 3 <= r < |g.rlhs|
    ensures EdgeAmong(g, A, gs, nullable, m, p, rules + [r]) <==>
              EdgeAmong(g, A, gs, nullable, m, p, rules) || PassedFrom(g, A, gs, nullable, m, p, r, 0)
  {}

  /** After one more rule of number i, walked to state q, exactly its own list has gained i. */
  lemma TraceStep(g: Packed, A: Automaton, gs: Gotos, la: seq<nat>, ruleno: seq<nat>, lookback: seq<seq<nat>>, i: nat,
                  rules: seq<nat>, r: nat, q: nat, place: nat)
    requires g.WellFormed() && Canonical(g, A) && Layout(A, la, ruleno) && |lookback| == |ruleno|
    requires LookbackLists(g, A, gs, la, lookback, i, rules) && r !in rules
    requires Lookback(g, A, gs, q, r, i) && q < |A.states|
    requires place < |A.reductions[q]| && A.reductions[q][place] == r && la[q] + place < |lookback|
    ensures LookbackLists(g, A, gs, la, lookback[la[q] + place := [i] + lookback[la[q] + place]], i, rules + [r])
  {
    var x := la[q] + place;
    var lookback' := lookback[x := [i] + lookback[x]];
    var rules' := rules + [r];
    forall q': nat, k: nat | q' < |A.states| && k < |A.reductions[q']|
      ensures SlotOK(g, A, gs, la, lookback', q', k, i, rules')
    {
      var r' := A.reductions[q'][k];
      SlotsApart(A, la, ruleno, q, place, q', k);
      assert SlotOK(g, A, gs, la, lookback, q', k, i, rules);
      assert r' in rules' <==> r' in rules || r' == r;
      if q' == q && r' == r {
        assert RowsOK(g, A.states, A.shifts, A.reductions, q);
        assert k == place && lookback'[x] == [i] + lookback[x];
        forall n: nat
          ensures n in lookback'[x] <==> Traced(g, A, gs, q, r, n, i, rules')
        {
          assert n in lookback[x] <==> Traced(g, A, gs, q, r, n, i, rules);
        }
      } else {
        if Lookback(g, A, gs, q', r', i) && r' == r {
          WalksUnique(g, A, gs.from[i], g.Rhs(r), q, q');
        }
        assert lookback'[la[q'] + k] == lookback[la[q'] + k];
        forall n: nat
          ensures n in lookback[la[q'] + k] <==> Traced(g, A, gs, q', r', n, i, rules')
        {
          assert n in lookback[la[q'] + k] <==> Traced(g, A, gs, q', r', n, i, rules);
        }
      }
    }
  }

  lemma SlotsApart(A: Automaton, la: seq<nat>, ruleno: seq<nat>, q: nat, k: nat, q': nat, k': nat)
    requires Layout(A, la, ruleno) && q < |A.states| && q' < |A.states|
    requires k < |A.reductions[q]| && k' < |A.reductions[q']|
    ensures la[q] + k == la[q'] + k' ==> q == q' && k == k'
    ensures la[q'] + k' < |ruleno|
  {
    assert SlotsHold(ruleno, la[q'], A.reductions[q']);
    if q < q' {
      assert la[q + 1] <= la[q'];
    } else if q' < q {
      assert la[q' + 1] <= la[q];
    }
  }

  ghost predicate Stage(g: Packed, A: Automaton, gs: Gotos, nullable: seq<bool>, derives: seq<seq<nat>>, la: seq<nat>,
                        ruleno: seq<nat>) {
    Setting(g, A, gs, nullable) && DerivesLists(g, derives) && Layout(A, la, ruleno)
  }

  /** The rules listed for the nonterminal of number i start in its source state. */
  lemma OwnRule(g: Packed, A: Automaton, gs: Gotos, derives: seq<seq<nat>>, i: nat, k: nat)
    requires g.WellFormed() && Canonical(g, A) && GotosOK(g, A, gs) && DerivesLists(g, derives) && i < |gs.from|
    requires gs.to[i] < |A.states| && g.ntokens <= SymbolOf(A, gs, i) < g.nsyms && k < |derives[SymbolOf(A, gs, i)]|
    ensures var r := derives[SymbolOf(A, gs, i)][k];
            3 <= r < |g.rlhs| && g.rlhs[r] == SymbolOf(A, gs, i) && gs.from[i] < |A.states|
            && g.rrhs[r] in ItemsOf(g, A, gs.from[i]) && r !in derives[SymbolOf(A, gs, i)][..k]
  {
    var X := SymbolOf(A, gs, i);
    var rules := derives[X];
    NumberIsGoto(g, A, gs, i);
    RuleListed(g, derives, X, k);
    NeverStart(g, A, gs.from[i], gs.to[i]);
    RulePredicted(g, A, gs.from[i], X, gs.to[i], rules[k]);
    assert Ascending(rules);
  }

  lemma EndOfRule(g: Packed, A: Automaton, p: nat, r: nat, states: seq<nat>)
    requires g.WellFormed() && 3 <= r < |g.rlhs| && RuleWalk(g, A, p, r, states)
    ensures StandsAt(g, A, p, r, states[|states| - 1], |g.Rhs(r)|)
    ensures Walks(A, p, g.Rhs(r), states[|states| - 1])
  {
    assert StandsAt(g, A, p, r, states[|states| - 1], |states| - 1);
    assert g.Rhs(r)[..|g.Rhs(r)|] == g.Rhs(r);
  }

  /** add_lookback_edge, for a rule known to be a reduction of the state. */
  method AddLookback(g: Packed, A: Automaton, lookaheads: array<nat>, LAruleno: array<nat>, lookback: array<seq<nat>>,
                     stateno: nat, ruleno: nat, gotono: nat, ghost place: nat)
    requires g.WellFormed() && Canonical(g, A)
    requires Layout(A, lookaheads[..], LAruleno[..]) && lookback.Length == LAruleno.Length
    requires stateno < |A.states| && place < |A.reductions[stateno]| && A.reductions[stateno][place] == ruleno
    modifies lookback
    ensures lookaheads[stateno] + place < lookback.Length
    ensures lookback[..] == old(lookback[..])[lookaheads[stateno] + place := [gotono] +
        old(lookback[lookaheads[stateno] + place])]
  {
    assert RowsOK(g, A.states, A.shifts, A.reductions, stateno);
    AddLookbackEdge(A, lookaheads, LAruleno, lookback, stateno, ruleno, gotono, place);
  }

  lemma AllRulesTraced(g: Packed, A: Automaton, gs: Gotos, nullable: seq<bool>, derives: seq<seq<nat>>, la: seq<nat>,
                       lookback: seq<seq<nat>>, i: nat)
    requires Setting(g, A, gs, nullable) && DerivesLists(g, derives) && i < |gs.from|
    requires gs.to[i] < |A.states| && g.ntokens <= SymbolOf(A, gs, i) < g.nsyms
    requires |la| == |A.states| + 1
    requires LookbackLists(g, A, gs, la, lookback, i, derives[SymbolOf(A, gs, i)])
    ensures LookbackLists(g, A, gs, la, lookback, i + 1, [])
    ensures forall m: nat :: EdgeAmong(g, A, gs, nullable, m, gs.from[i], derives[SymbolOf(A, gs, i)]) <==>
              Includes(g, A, gs, nullable, m, i)
  {
    var X := SymbolOf(A, gs, i);
    forall r: nat
      ensures r in derives[X] <==> r < |g.rlhs| && g.rlhs[r] == X
    {
      assert r in derives[X] <==> r in RulesOf(g, X, |g.rlhs|);
    }
    forall m: nat | EdgeAmong(g, A, gs, nullable, m, gs.from[i], derives[X])
      ensures Includes(g, A, gs, nullable, m, i)
    {
      var r: nat :| r in derives[X] && 3 <= r < |g.rlhs| && PassedFrom(g, A, gs, nullable, m, gs.from[i], r, 0);
      assert IncludesVia(g, A, gs, nullable, m, i, r);
    }
    forall m: nat | Includes(g, A, gs, nullable, m, i)
      ensures EdgeAmong(g, A, gs, nullable, m, gs.from[i], derives[X])
    {
      var r: nat :| IncludesVia(g, A, gs, nullable, m, i, r);
      assert PassedFrom(g, A, gs, nullable, m, gs.from[i], r, 0);
    }
    var next := i + 1;
    var none: seq<nat> := [];
    forall q: nat, k: nat | q < |A.states| && k < |A.reductions[q]|
      ensures SlotOK(g, A, gs, la, lookback, q, k, next, none)
    {
      assert SlotOK(g, A, gs, la, lookback, q, k, i, derives[X]);
      forall n: nat
        ensures Traced(g, A, gs, q, A.reductions[q][k], n, i, derives[X]) <==>
            Traced(g, A, gs, q, A.reductions[q][k], n, next, none)
      {
      }
    }
  }

  /** One number of build_relations: its lookback entries, and the numbers that include it. */
  method TraceGoto(g: Packed, A: Automaton, gs: Gotos, nullable: array<bool>, derives: array<seq<nat>>,
                   lookaheads: array<nat>, LAruleno: array<nat>, lookback: array<seq<nat>>, i: nat)
    returns (edge: seq<nat>)
    requires Stage(g, A, gs, nullable[..], derives[..], lookaheads[..], LAruleno[..]) && i < |gs.from|
    requires lookback.Length == LAruleno.Length && lookback != derives
    requires LookbackLists(g, A, gs, lookaheads[..], lookback[..], i, [])
    modifies lookback
    ensures LookbackLists(g, A, gs, lookaheads[..], lookback[..], i + 1, [])
    ensures forall m: nat :: m in edge <==> Includes(g, A, gs, nullable[..], m, i)
  {
    NumberIsGoto(g, A, gs, i);
    var state1 := gs.from[i];
    var symbol1 := A.states[gs.to[i]].accessing;
    var rules := derives[symbol1];
    ghost var la := lookaheads[..];
    ghost var nul := nullable[..];
    edge := [];
    var rulep := 0;
    assert rules[..0] == [];
    while rulep < |rules|
      invariant rulep <= |rules|
      invariant LookbackLists(g, A, gs, la, lookback[..], i, rules[..rulep])
      invariant forall m: nat :: m in edge <==> EdgeAmong(g, A, gs, nul, m, state1, rules[..rulep])
    {
      OwnRule(g, A, gs, old(derives[..]), i, rulep);
      assert rules[..rulep + 1] == rules[..rulep] + [rules[rulep]];
      var e := TraceRule(g, A, gs, nullable, lookaheads, LAruleno, lookback, i, rules[rulep], rules[..rulep]);
      forall m: nat
        ensures EdgeAmong(g, A, gs, nul, m, state1, rules[..rulep + 1]) <==> m in edge || m in e
      {
        EdgeAmongSnoc(g, A, gs, nul, m, state1, rules[..rulep], rules[rulep]);
      }
      edge := edge + e;
      rulep := rulep + 1;
    }
    assert rules[..rulep] == rules;
    AllRulesTraced(g, A, gs, nul, old(derives[..]), la, lookback[..], i);
  }

  lemma TosAndFroms(g: Packed, A: Automaton, gs: Gotos)
    requires GotosOK(g, A, gs)
    ensures |gs.to| == |gs.from|
  {}

  /** One rule of one number: the walk there, the lookback entry, and the walk back. */
  method TraceRule(g: Packed, A: Automaton, gs: Gotos, nullable: array<bool>, lookaheads: array<nat>,
                   LAruleno: array<nat>, lookback: array<seq<nat>>, i: nat, r: nat, ghost rules: seq<nat>)
    returns (edge: seq<nat>)
    requires Setting(g, A, gs, nullable[..]) && Layout(A, lookaheads[..], LAruleno[..]) && i < |gs.from|
    requires lookback.Length == LAruleno.Length && gs.to[i] < |A.states| && gs.from[i] < |A.states|
    requires 3 <= r < |g.rlhs| && g.rlhs[r] == SymbolOf(A, gs, i) && g.rrhs[r] in ItemsOf(g, A, gs.from[i])
    requires r !in rules && LookbackLists(g, A, gs, lookaheads[..], lookback[..], i, rules)
    modifies lookback
    ensures LookbackLists(g, A, gs, lookaheads[..], lookback[..], i, rules + [r])
    ensures forall m: nat :: m in edge <==> PassedFrom(g, A, gs, nullable[..], m, gs.from[i], r, 0)
  {
    hide LookbackLists, PassedFrom, Canonical, GotosOK, Walks, StandsAt;
    TosAndFroms(g, A, gs);
    var states := WalkRule(g, A, gs.from[i], r);
    var stateno := states[|states| - 1];
    EndOfRule(g, A, gs.from[i], r, states);
    ghost var place := RuleReduces(g, A, gs.from[i], r, stateno);
    assert SlotsHold(LAruleno[..], lookaheads[..][stateno], A.reductions[stateno]);
    TraceStep(g, A, gs, lookaheads[..], LAruleno[..], lookback[..], i, rules, r, stateno, place);
    AddLookback(g, A, lookaheads, LAruleno, lookback, stateno, r, i, place);
    edge := BackRule(g, A, gs, nullable, r, states);
  }

  /** build_relations: lookback complete, and per number the numbers that include it. */
  method BuildRelations(g: Packed, A: Automaton, gs: Gotos, nullable: array<bool>, derives: array<seq<nat>>,
                        lookaheads: array<nat>, LAruleno: array<nat>)
    returns (lookback: array<seq<nat>>, includes: seq<seq<nat>>)
    requires Stage(g, A, gs, nullable[..], derives[..], lookaheads[..], LAruleno[..])
    ensures fresh(lookback) && lookback.Length == LAruleno.Length
    ensures LookbackLists(g, A, gs, lookaheads[..], lookback[..], |gs.from|, [])
    ensures |includes| == |gs.from| && WellFormed(includes)
    ensures forall m: nat, n: nat :: m < |gs.from| ==> (n in includes[m] <==> Includes(g, A, gs, nullable[..], m, n))
  {
    hide Includes, LookbackLists, Stage, Within, EdgesOf, WellFormed;
    lookback := new seq<nat>[LAruleno.Length](_ => []);
    StageLists(g, A, gs, nullable[..], derives[..], lookaheads[..], LAruleno[..], lookback[..]);
    var raw := TraceGotos(g, A, gs, nullable, derives, lookaheads, LAruleno, lookback);
    IncludesWithin(g, A, gs, nullable[..], raw);
    includes := Transpose(raw, |gs.from|);
    IncludesTurned(g, A, gs, nullable[..], raw, includes);
  }

  lemma StageLists(g: Packed, A: Automaton, gs: Gotos, nullable: seq<bool>, derives: seq<seq<nat>>, la: seq<nat>,
                   ruleno: seq<nat>, lookback: seq<seq<nat>>)
    requires Stage(g, A, gs, nullable, derives, la, ruleno) && |lookback| == |ruleno|
    requires forall x :: 0 <= x < |lookback| ==> lookback[x] == []
    ensures g.WellFormed() && |gs.from| == |gs.to| && LookbackLists(g, A, gs, la, lookback, 0, [])
  {
    EmptyLists(g, A, gs, la, ruleno, lookback);
  }

  /** The edges found at each transition go back to the transitions that include it. */
  ghost predicate IncludedBy(g: Packed, A: Automaton, gs: Gotos, nullable: seq<bool>, raw: seq<seq<nat>>)
    requires g.WellFormed()
  {
    forall n: nat, m: nat :: n < |raw| ==> (m in raw[n] <==> Includes(g, A, gs, nullable, m, n))
  }

  /** The loop of build_relations. */
  method TraceGotos(g: Packed, A: Automaton, gs: Gotos, nullable: array<bool>, derives: array<seq<nat>>,
                    lookaheads: array<nat>, LAruleno: array<nat>, lookback: array<seq<nat>>)
    returns (raw: seq<seq<nat>>)
    requires Stage(g, A, gs, nullable[..], derives[..], lookaheads[..], LAruleno[..])
    requires lookback.Length == LAruleno.Length && lookback != derives
    requires LookbackLists(g, A, gs, lookaheads[..], lookback[..], 0, [])
    modifies lookback
    ensures LookbackLists(g, A, gs, lookaheads[..], lookback[..], |gs.from|, [])
    ensures |raw| == |gs.from| && IncludedBy(g, A, gs, nullable[..], raw)
  {
    hide Includes, LookbackLists, GotosOK, DerivesLists, RowsOK;
    raw := [];
    while |raw| < |gs.from|
      invariant |raw| <= |gs.from| && LookbackLists(g, A, gs, lookaheads[..], lookback[..], |raw|, [])
      invariant IncludedBy(g, A, gs, nullable[..], raw)
    {
      var edge := TraceGoto(g, A, gs, nullable, derives, lookaheads, LAruleno, lookback, |raw|);
      raw := raw + [edge];
    }
  }

  lemma IncludesWithin(g: Packed, A: Automaton, gs: Gotos, nullable: seq<bool>, raw: seq<seq<nat>>)
    requires g.WellFormed() && IncludedBy(g, A, gs, nullable, raw) && |raw| == |gs.from| == |gs.to|
    ensures Within(raw, |gs.from|)
  {
    forall n, k | 0 <= n < |raw| && 0 <= k < |raw[n]|
      ensures raw[n][k] < |gs.from|
    {
      assert raw[n][k] in raw[n];
      IncludesInRange(g, A, gs, nullable, raw[n][k], n);
    }
  }

  /** Turned round, the edges lead from each transition to those it includes. */
  lemma IncludesTurned(g: Packed, A: Automaton, gs: Gotos, nullable: seq<bool>, raw: seq<seq<nat>>,
                       includes: seq<seq<nat>>)
    requires g.WellFormed() && IncludedBy(g, A, gs, nullable, raw) && |raw| == |gs.from| == |gs.to| == |includes|
    requires forall j: nat :: j < |includes| ==> includes[j] == Bucket(EdgesOf(raw, |raw|), j)
    ensures WellFormed(includes)
    ensures forall m: nat, n: nat :: m < |gs.from| ==> (n in includes[m] <==> Includes(g, A, gs, nullable, m, n))
  {
    hide Includes, EdgesOf, Bucket;
    forall m: nat, n: nat | m < |gs.from|
      ensures n in includes[m] <==> Includes(g, A, gs, nullable, m, n)
    {
      TransposeTurns(raw, m, n);
      if Includes(g, A, gs, nullable, m, n) {
        IncludesInRange(g, A, gs, nullable, m, n);
      }
    }
    forall m, k | 0 <= m < |includes| && 0 <= k < |includes[m]|
      ensures includes[m][k] < |includes|
    {
      assert includes[m][k] in includes[m];
      IncludesInRange(g, A, gs, nullable, m, includes[m][k]);
    }
  }

  lemma IncludesInRange(g: Packed, A: Automaton, gs: Gotos, nullable: seq<bool>, m: nat, n: nat)
    requires g.WellFormed() && |gs.from| == |gs.to| && Includes(g, A, gs, nullable, m, n)
    ensures m < |gs.from| && n < |gs.from|
  {
    var r: nat :| IncludesVia(g, A, gs, nullable, m, n, r);
  }

  lemma EmptyLists(g: Packed, A: Automaton, gs: Gotos, la: seq<nat>, ruleno: seq<nat>, lookback: seq<seq<nat>>)
    requires g.WellFormed() && Layout(A, la, ruleno) && |lookback| == |ruleno|
    requires forall x :: 0 <= x < |lookback| ==> lookback[x] == []
    ensures LookbackLists(g, A, gs, la, lookback, 0, [])
  {
    var none: seq<nat> := [];
    forall q: nat, k: nat | q < |A.states| && k < |A.reductions[q]|
      ensures SlotOK(g, A, gs, la, lookback, q, k, 0, none)
    {
      SlotsApart(A, la, ruleno, q, k, q, k);
    }
  }

  /** Token t can follow transition n: it is read after some transition n includes, directly or
      through nullable nonterminals. */
  ghost predicate Follows(g: Packed, A: Automaton, gs: Gotos, nullable: seq<bool>, n: nat, t: nat)
    requires g.WellFormed()
  {
    exists m: nat :: m < |gs.from| && Reach(IncludesRel(g, A, gs, nullable), n, m) && ReadBy(g, A, gs, nullable, m, t)
  }

  ghost predicate ReadBy(g: Packed, A: Automaton, gs: Gotos, nullable: seq<bool>, m: nat, t: nat) {
    exists k: nat :: k < |gs.from| && Reach(ReadsRel(g, A, gs, nullable), m, k) && DirectlyReads(g, A, gs, k, t)
  }

  /** Token t is a lookahead for reducing by r in state q. */
  ghost predicate Lookahead(g: Packed, A: Automaton, gs: Gotos, nullable: seq<bool>, q: nat, r: nat, t: nat)
    requires g.WellFormed()
  {
    exists n: nat :: Lookback(g, A, gs, q, r, n) && Follows(g, A, gs, nullable, n, t)
  }

  lemma ReadsFlow(g: Packed, A: Automaton, gs: Gotos, nullable: seq<bool>, reads_: seq<seq<nat>>, F0: seq<set<nat>>,
                  m: nat, t: nat)
    requires Setting(g, A, gs, nullable) && ReadsLists(g, A, gs, nullable, reads_) && |F0| == |gs.from|
    requires forall n: nat, u: nat :: n < |F0| ==> (u in F0[n] <==> DirectlyReads(g, A, gs, n, u))
    ensures Flows(reads_, F0, m, t) <==> ReadBy(g, A, gs, nullable, m, t)
  {
    forall k: nat
      ensures Reach(EdgeRel(reads_), m, k) <==> Reach(ReadsRel(g, A, gs, nullable), m, k)
    {
      forall x: nat, y: nat
        ensures EdgeRel(reads_)(x, y) <==> ReadsRel(g, A, gs, nullable)(x, y)
      {
      }
      ReachCongruence(EdgeRel(reads_), ReadsRel(g, A, gs, nullable), m, k);
    }
  }

  lemma IncludesFlow(g: Packed, A: Automaton, gs: Gotos, nullable: seq<bool>, includes: seq<seq<nat>>,
                     F1: seq<set<nat>>, n: nat, t: nat)
    requires Setting(g, A, gs, nullable) && |includes| == |F1| == |gs.from|
    requires forall m: nat, k: nat :: m < |includes| ==> (k in includes[m] <==> Includes(g, A, gs, nullable, m, k))
    requires forall m: nat, u: nat :: m < |F1| ==> (u in F1[m] <==> ReadBy(g, A, gs, nullable, m, u))
    ensures Flows(includes, F1, n, t) <==> Follows(g, A, gs, nullable, n, t)
  {
    forall m: nat
      ensures Reach(EdgeRel(includes), n, m) <==> Reach(IncludesRel(g, A, gs, nullable), n, m)
    {
      forall x: nat, y: nat
        ensures EdgeRel(includes)(x, y) <==> IncludesRel(g, A, gs, nullable)(x, y)
      {
        if Includes(g, A, gs, nullable, x, y) {
          IncludesInRange(g, A, gs, nullable, x, y);
        }
      }
      ReachCongruence(EdgeRel(includes), IncludesRel(g, A, gs, nullable), n, m);
    }
  }

  /** compute_lookaheads: every slot receives the rows of the numbers on its list. */
  method ComputeLookaheads(F: array2<Word>, lookback: array<seq<nat>>, ntokens: nat) returns (LA: array2<Word>)
    requires F.Length1 == WordSize(ntokens)
    requires forall x, k :: 0 <= x < lookback.Length && 0 <= k < |lookback[x]| ==> lookback[x][k] < F.Length0
    ensures fresh(LA) && LA.Length0 == lookback.Length && LA.Length1 == WordSize(ntokens)
    ensures forall x: nat, t: nat :: x < lookback.Length ==>
              (t in Rows(LA)[x] <==> exists n: nat :: n in lookback[x] && n < F.Length0 && t in Rows(F)[n])
  {
    LA := NewMatrix(lookback.Length, ntokens);
    ghost var rows := Rows(F);
    ghost var lists := lookback[..];
    var i := 0;
    while i < lookback.Length
      invariant i <= lookback.Length && Rows(F) == rows && lookback[..] == lists
      invariant forall x: nat :: i <= x < lookback.Length ==> Rows(LA)[x] == {}
      invariant forall x: nat, t: nat :: x < i ==> (t in Rows(LA)[x] <==> InSome(rows, lists[x], t))
    {
      var sp := 0;
      while sp < |lookback[i]|
        invariant Rows(F) == rows && lookback[..] == lists && sp <= |lists[i]|
        invariant forall x: nat :: i < x < lookback.Length ==> Rows(LA)[x] == {}
        invariant forall x: nat, t: nat :: x < i ==> (t in Rows(LA)[x] <==> InSome(rows, lists[x], t))
        invariant forall t: nat :: t in Rows(LA)[i] <==> InSome(rows, lists[i][..sp], t)
      {
        var n := lookback[i][sp];
        assert lists[i][..sp + 1] == lists[i][..sp] + [n];
        OrRow(LA, i, F, n);
        sp := sp + 1;
      }
      assert lists[i][..sp] == lists[i];
      i := i + 1;
    }
  }

  ghost predicate InSome(rows: seq<set<nat>>, list: seq<nat>, t: nat) {
    exists n: nat :: n in list && n < |rows| && t in rows[n]
  }

  /** The lookahead tables: slot la[q] + k holds exactly the lookaheads of reduction k of q. */
  ghost predicate LookaheadsOK(g: Packed, A: Automaton, gs: Gotos, nullable: seq<bool>, la: seq<nat>, ruleno: seq<nat>,
                               LA: seq<set<nat>>) {
    && g.WellFormed() && Layout(A, la, ruleno) && |LA| == |ruleno|
    && forall q: nat, k: nat, t: nat :: q < |A.states| && k < |A.reductions[q]| ==>
         la[q] + k < |LA| && (t in LA[la[q] + k] <==> Lookahead(g, A, gs, nullable, q, A.reductions[q][k], t))
  }

  lemma SlotsAreLookaheads(g: Packed, A: Automaton, gs: Gotos, nullable: seq<bool>, la: seq<nat>, ruleno: seq<nat>,
                           lookback: seq<seq<nat>>, F: seq<set<nat>>, LA: seq<set<nat>>)
    requires Setting(g, A, gs, nullable) && Layout(A, la, ruleno) && |LA| == |ruleno| == |lookback| && |F| == |gs.from|
    requires LookbackLists(g, A, gs, la, lookback, |gs.from|, [])
    requires forall n: nat, t: nat :: n < |F| ==> (t in F[n] <==> Follows(g, A, gs, nullable, n, t))
    requires forall x: nat, t: nat :: x < |LA| ==> (t in LA[x] <==> InSome(F, lookback[x], t))
    ensures LookaheadsOK(g, A, gs, nullable, la, ruleno, LA)
  {
    forall q: nat, k: nat, t: nat | q < |A.states| && k < |A.reductions[q]|
      ensures la[q] + k < |LA| && (t in LA[la[q] + k] <==> Lookahead(g, A, gs, nullable, q, A.reductions[q][k], t))
    {
      var x := la[q] + k;
      var r := A.reductions[q][k];
      assert SlotOK(g, A, gs, la, lookback, q, k, |gs.from|, []);
      if t in LA[x] {
        var n: nat :| n in lookback[x] && n < |F| && t in F[n];
        assert Traced(g, A, gs, q, r, n, |gs.from|, []);
      }
      if Lookahead(g, A, gs, nullable, q, r, t) {
        var n: nat :| Lookback(g, A, gs, q, r, n) && Follows(g, A, gs, nullable, n, t);
        assert Traced(g, A, gs, q, r, n, |gs.from|, []);
        assert n in lookback[x] && t in F[n];
      }
    }
  }

  /** lalr: the lookahead sets of an automaton. */
  method Lalr(g: Packed, A: Automaton, nullable: array<bool>, derives: array<seq<nat>>)
    returns (gs: Gotos, lookaheads: array<nat>, LAruleno: array<nat>, LA: array2<Word>)
    requires g.WellFormed() && Canonical(g, A) && DerivesLists(g, derives[..])
    requires nullable.Length == g.nsyms && forall s: nat :: s < g.nsyms ==>
        (nullable[s] <==> DerivesEmpty(g.ToCfg(), s))
    ensures GotosOK(g, A, gs) && fresh(lookaheads) && fresh(LAruleno) && fresh(LA)
    ensures LA.Length1 == WordSize(g.ntokens)
    ensures LookaheadsOK(g, A, gs, nullable[..], lookaheads[..], LAruleno[..], Rows(LA))
  {
    TokensNotNullable(g);
    lookaheads, LAruleno := InitializeLA(A);
    gs := SetGotoMap(g, A);
    ghost var nul := nullable[..];
    var F, reads_ := InitializeF(g, A, gs, nullable);
    ghost var F0 := Rows(F);
    ReadsWellFormed(g, A, gs, nul, reads_);
    Digraph(F, reads_);
    ghost var F1 := Rows(F);
    forall m: nat, t: nat | m < |gs.from|
      ensures t in F1[m] <==> ReadBy(g, A, gs, nul, m, t)
    {
      ReadsFlow(g, A, gs, nul, reads_, F0, m, t);
    }
    var lookback, includes := BuildRelations(g, A, gs, nullable, derives, lookaheads, LAruleno);
    assert Rows(F) == F1;
    Digraph(F, includes);
    ghost var F2 := Rows(F);
    forall n: nat, t: nat | n < |gs.from|
      ensures t in F2[n] <==> Follows(g, A, gs, nul, n, t)
    {
      IncludesFlow(g, A, gs, nul, includes, F1, n, t);
    }
    ListsInRange(g, A, gs, lookaheads[..], LAruleno[..], lookback[..]);
    LA := ComputeLookaheads(F, lookback, g.ntokens);
    SlotsAreLookaheads(g, A, gs, nul, lookaheads[..], LAruleno[..], lookback[..], F2, Rows(LA));
  }

  lemma TokensNotNullable(g: Packed)
    requires g.WellFormed()
    ensures forall t: nat :: t < g.ntokens ==> !DerivesEmpty(g.ToCfg(), t)
  {
    forall t: nat | t < g.ntokens && DerivesEmpty(g.ToCfg(), t)
      ensures false
    {
      var tree :| Parses(g.ToCfg(), tree, t) && Yield(tree) == [];
      TokenTree(g, tree, t);
    }
  }

  lemma TokenTree(g: Packed, tree: Tree, t: nat)
    requires g.WellFormed() && t < g.ntokens && Parses(g.ToCfg(), tree, t)
    ensures tree.Leaf?
  {}

  lemma ReadsWellFormed(g: Packed, A: Automaton, gs: Gotos, nullable: seq<bool>, reads_: seq<seq<nat>>)
    requires ReadsLists(g, A, gs, nullable, reads_)
    ensures WellFormed(reads_)
  {
    forall v, k | 0 <= v < |reads_| && 0 <= k < |reads_[v]|
      ensures reads_[v][k] < |reads_|
    {
      assert reads_[v][k] in reads_[v];
    }
  }

  /** Every slot belongs to a reduction, so the lists hold numbers of transitions only. */
  lemma ListsInRange(g: Packed, A: Automaton, gs: Gotos, la: seq<nat>, ruleno: seq<nat>, lookback: seq<seq<nat>>)
    requires g.WellFormed() && GotosOK(g, A, gs) && Layout(A, la, ruleno) && |lookback| == |ruleno|
    requires LookbackLists(g, A, gs, la, lookback, |gs.from|, [])
    ensures forall x, k :: 0 <= x < |lookback| && 0 <= k < |lookback[x]| ==> lookback[x][k] < |gs.from|
  {
    forall x, k | 0 <= x < |lookback| && 0 <= k < |lookback[x]|
      ensures lookback[x][k] < |gs.from|
    {
      var q := SlotState(A, la, ruleno, x, |A.states|);
      assert SlotOK(g, A, gs, la, lookback, q, x - la[q], |gs.from|, []);
      assert lookback[x][k] in lookback[x];
      assert Traced(g, A, gs, q, A.reductions[q][x - la[q]], lookback[x][k], |gs.from|, []);
    }
  }

  lemma {:induction false} SlotState(A: Automaton, la: seq<nat>, ruleno: seq<nat>, x: nat, n: nat) returns (q: nat)
    requires Layout(A, la, ruleno) && n <= |A.states| && x < la[n]
    ensures q < |A.states| && la[q] <= x < la[q] + |A.reductions[q]|
    decreases n
  {
    if la[n - 1] <= x {
      q := n - 1;
    } else {
      q := SlotState(A, la, ruleno, x, n - 1);
    }
  }
}

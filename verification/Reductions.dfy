/** skeleton.c, reductions between two tokens, seen on the state stack alone. They go on for ever
    exactly where two states on top of the stack circle: come again, by reductions that uncover
    nothing below them. */
module Reductions {
  import opened Reachability
  import opened Grammar
  import opened LR0
  import opened Paths
  import opened ConflictTable
  import opened ActionRows
  import opened Output
  import opened Machine
  import opened MachineStacks
  import Trials
  import Search
  import Completeness

  /** The rule the parser reduces by first in state q before token number key: its default, the first
      alternative of a conflict, or the one reduction. */
  function RuleTried(T: Tables, q: nat, key: nat): Option<int>
    requires Shaped(T)
  {
    if q >= |T.defred| then None
    else if T.defred[q] != 0 then Some(T.defred[q])
    else if Peek(T, T.cindex, q, key).Some? then
      var e := Peek(T, T.cindex, q, key).value;
      if 0 <= e && e + 1 < |T.ctable| && T.ctable[e] == -1 then Some(T.ctable[e + 1]) else None
    else if Peek(T, T.sindex, q, key).Some? then None
    else Peek(T, T.rindex, q, key)
  }

  /** The state stack after a reduction by y; None where it ends the parse or uncovers too much. */
  function Uncovered(T: Tables, ss: seq<nat>, key: nat, y: int): (r: Option<seq<nat>>)
    requires Shaped(T)
    ensures r.Some? ==> |r.value| >= 2
  {
    if !(0 <= y < |T.len| && 0 <= T.len[y] < |ss|) then None
    else
      var below := ss[..|ss| - T.len[y]];
      var p := below[|below| - 1];
      if p == 0 && T.lhs[y] == 0 then (if key == 0 then None else Some(below + [T.final]))
      else if !(0 <= T.lhs[y] < |T.gindex|) then None
      else
        var n := T.GotoTo(p, T.lhs[y]);
        if n < 0 then None else Some(below + [n])
  }

  /** The parser reduces by y in state q: first, or, where any is true, as one of its alternatives. */
  ghost predicate Tries(T: Tables, any: bool, q: nat, key: nat, y: int)
    requires Shaped(T)
  {
    if any then Completeness.Offers(T, q, key, Trials.DoReduce(y)) else RuleTried(T, q, key) == Some(y)
  }

  ghost predicate ReducesBy(T: Tables, any: bool, key: nat, s: seq<nat>, t: seq<nat>, y: int)
    requires Shaped(T)
  {
    s != [] && Tries(T, any, s[|s| - 1], key, y) && Uncovered(T, s, key, y) == Some(t)
  }

  /** One reduction on the state stack. */
  ghost predicate Reduces(T: Tables, any: bool, key: nat, s: seq<nat>, t: seq<nat>)
    requires Shaped(T)
  {
    exists y: int :: ReducesBy(T, any, key, s, t, y)
  }

  /** What lies below does not matter to a reduction that does not uncover it. */
  lemma ReducesAbove(T: Tables, any: bool, key: nat, b: seq<nat>, s: seq<nat>, t: seq<nat>)
    requires Shaped(T) && Reduces(T, any, key, s, t)
    ensures Reduces(T, any, key, b + s, b + t)
  {
    var y :| ReducesBy(T, any, key, s, t, y);
    var below := s[..|s| - T.len[y]];
    assert (b + s)[|b + s| - 1] == s[|s| - 1];
    assert (b + s)[..|b + s| - T.len[y]] == b + below;
    assert (b + below)[|b + below| - 1] == below[|below| - 1];
    assert b + t == (b + below) + [t[|t| - 1]];
    assert ReducesBy(T, any, key, b + s, b + t, y);
  }

  /** A reduction that leaves two entries above b was a reduction of what is above b. */
  lemma ReducesOnlyAbove(T: Tables, any: bool, key: nat, b: seq<nat>, s: seq<nat>, t: seq<nat>)
    requires Shaped(T) && s != [] && Reduces(T, any, key, b + s, t) && |t| >= |b| + 2
    ensures t == b + t[|b|..] && Reduces(T, any, key, s, t[|b|..])
  {
    var y :| ReducesBy(T, any, key, b + s, t, y);
    var below := s[..|s| - T.len[y]];
    assert (b + s)[|b + s| - 1] == s[|s| - 1];
    assert (b + s)[..|b + s| - T.len[y]] == b + below;
    assert (b + below)[|b + below| - 1] == below[|below| - 1];
    assert t[|b|..] == below + [t[|t| - 1]];
    assert ReducesBy(T, any, key, s, t[|b|..], y);
  }

  lemma ReducesOnce(T: Tables, key: nat, s: seq<nat>, t: seq<nat>, u: seq<nat>)
    requires Shaped(T) && Reduces(T, false, key, s, t) && Reduces(T, false, key, s, u)
    ensures t == u
  {}

  /** Each stack of c comes from the one before it by a reduction. */
  ghost predicate Chain(T: Tables, any: bool, key: nat, c: seq<seq<nat>>)
    requires Shaped(T)
  {
    c != [] && forall i, j :: 0 <= i < j < |c| && j == i + 1 ==> Reduces(T, any, key, c[i], c[j])
  }

  ghost predicate CirclesBy(T: Tables, any: bool, p: nat, q: nat, key: nat, c: seq<seq<nat>>, b: seq<nat>)
    requires Shaped(T)
  {
    |c| > 1 && Chain(T, any, key, c) && c[0] == [p, q] && c[|c| - 1] == b + [p, q]
  }

  /** From p and q on top, reductions that uncover nothing below p lead to p and q on top. */
  ghost predicate Circles(T: Tables, any: bool, p: nat, q: nat, key: nat)
    requires Shaped(T)
  {
    exists c: seq<seq<nat>>, b: seq<nat> :: CirclesBy(T, any, p, q, key, c, b)
  }

  ghost predicate Turns(T: Tables, any: bool, key: nat, f: nat -> seq<nat>, n: nat)
    requires Shaped(T)
  {
    Reduces(T, any, key, f(n), f(n + 1))
  }

  /** The stacks f(0), f(1), ... come each from the one before it. */
  ghost predicate Endless(T: Tables, any: bool, key: nat, f: nat -> seq<nat>)
    requires Shaped(T)
  {
    forall n: nat :: Turns(T, any, key, f, n)
  }

  function Copies(b: seq<nat>, n: nat): seq<nat> {
    if n == 0 then [] else Copies(b, n - 1) + b
  }

  /** Round and round. */
  function Rounds(a: seq<nat>, b: seq<nat>, c: seq<seq<nat>>, n: nat): seq<nat>
    requires |c| > 1
  {
    a + Copies(b, n / (|c| - 1)) + c[n % (|c| - 1)]
  }

  lemma NextRound(n: nat, m: nat)
    requires m > 0
    ensures if n % m + 1 < m then (n + 1) / m == n / m && (n + 1) % m == n % m + 1
            else (n + 1) / m == n / m + 1 && (n + 1) % m == 0
  {
    var k, i := n / m, n % m;
    assert n == k * m + i;
    if i + 1 < m {
      DivMod(n + 1, m, k, i + 1);
    } else {
      assert (k + 1) * m == k * m + m;
      DivMod(n + 1, m, k + 1, 0);
    }
  }

  lemma DivMod(n: nat, m: nat, k: nat, i: nat)
    requires i < m && n == k * m + i
    ensures n / m == k && n % m == i
  {
    PairUnique(n / m, n % m, k, i, m);
  }

  lemma CircleGoesOn(T: Tables, any: bool, p: nat, q: nat, key: nat, c: seq<seq<nat>>, a: seq<nat>, b: seq<nat>, n: nat)
    requires Shaped(T) && CirclesBy(T, any, p, q, key, c, b)
    ensures Reduces(T, any, key, Rounds(a, b, c, n), Rounds(a, b, c, n + 1))
  {
    hide Reduces, Shaped;
    var m := |c| - 1;
    var k, i := n / m, n % m;
    NextRound(n, m);
    assert Reduces(T, any, key, c[i], c[i + 1]);
    ReducesAbove(T, any, key, a + Copies(b, k), c[i], c[i + 1]);
    if i + 1 == m {
      assert a + Copies(b, k) + (b + [p, q]) == a + (Copies(b, k) + b) + [p, q];
    }
  }

  /** States that circle on top of a stack do so for ever. */
  lemma CircleIsEndless(T: Tables, any: bool, a: seq<nat>, p: nat, q: nat, key: nat) returns (f: nat -> seq<nat>)
    requires Shaped(T) && Circles(T, any, p, q, key)
    ensures f(0) == a + [p, q] && Endless(T, any, key, f)
  {
    hide Reduces, Shaped;
    var c: seq<seq<nat>>, b: seq<nat> :| CirclesBy(T, any, p, q, key, c, b);
    f := n => Rounds(a, b, c, n);
    DivMod(0, |c| - 1, 0, 0);
    assert a + [] + [p, q] == a + [p, q];
    forall n: nat
      ensures Turns(T, any, key, f, n)
    {
      CircleGoesOn(T, any, p, q, key, c, a, b, n);
    }
  }

  /** From f(n) on the stack is never lower. */
  ghost predicate IsFloor(f: nat -> seq<nat>, n: nat) {
    forall l: nat :: n <= l ==> |f(n)| <= |f(l)|
  }

  lemma {:induction false} NextFloor(f: nat -> seq<nat>, n0: nat) returns (n: nat)
    ensures n0 <= n && IsFloor(f, n)
    decreases |f(n0)|
  {
    if IsFloor(f, n0) {
      n := n0;
    } else {
      var l: nat :| n0 <= l && |f(l)| < |f(n0)|;
      n := NextFloor(f, l);
    }
  }

  ghost predicate FloorsAt(f: nat -> seq<nat>, ns: seq<nat>) {
    && (forall i :: 0 <= i < |ns| ==> ns[i] > 0 && IsFloor(f, ns[i]))
    && forall i, j :: 0 <= i < j < |ns| ==> ns[i] < ns[j]
  }

  lemma {:induction false} Floors(f: nat -> seq<nat>, c: nat) returns (ns: seq<nat>)
    ensures |ns| == c && FloorsAt(f, ns)
  {
    if c == 0 {
      ns := [];
    } else {
      var front := Floors(f, c - 1);
      var n := NextFloor(f, if c == 1 then 1 else front[c - 2] + 1);
      ns := front + [n];
    }
  }

  /** Of more than M numbers below M two are equal. */
  lemma TwoEqual(cs: seq<nat>, M: nat) returns (i: nat, j: nat)
    requires |cs| > M && forall k :: 0 <= k < |cs| ==> cs[k] < M
    ensures i < j < |cs| && cs[i] == cs[j]
  {
    if forall k, l :: 0 <= k < l < |cs| ==> cs[k] != cs[l] {
      Pigeonhole(cs, M);
    }
    i, j :| 0 <= i < j < |cs| && cs[i] == cs[j];
  }

  /** Two states as one number. */
  ghost function TopPair(s: seq<nat>, N: nat): nat
    requires |s| >= 2
  {
    s[|s| - 2] * N + s[|s| - 1]
  }

  lemma PairBelow(a: nat, b: nat, N: nat)
    requires a < N && b < N
    ensures a * N + b < N * N
  {
    assert a * N <= (N - 1) * N;
  }

  lemma OneMore(a: nat, c: nat, N: nat)
    requires a < c
    ensures a * N + N <= c * N
  {
    var k := c - a - 1;
    assert k * N >= 0;
    assert c * N == (a + 1 + k) * N == a * N + N + k * N;
  }

  lemma PairUnique(a: nat, b: nat, c: nat, d: nat, N: nat)
    requires b < N && d < N && a * N + b == c * N + d
    ensures a == c && b == d
  {
    if a < c {
      OneMore(a, c, N);
    } else if c < a {
      OneMore(c, a, N);
    }
  }

  /** Above a floor the reductions are those of its top two states. */
  lemma {:induction false} AboveFloor(T: Tables, any: bool, key: nat, f: nat -> seq<nat>, n: nat, b: seq<nat>, p: nat,
                                      q: nat, m: nat) returns (c: seq<seq<nat>>)
    requires Shaped(T) && Endless(T, any, key, f) && IsFloor(f, n) && f(n) == b + [p, q]
    ensures |c| == m + 1 && Chain(T, any, key, c) && c[0] == [p, q] && f(n + m) == b + c[m] && |c[m]| >= 2
    decreases m
  {
    hide Reduces, Shaped;
    if m == 0 {
      c := [[p, q]];
    } else {
      var front := AboveFloor(T, any, key, f, n, b, p, q, m - 1);
      assert Turns(T, any, key, f, n + m - 1);
      assert |f(n)| <= |f(n + m)|;
      ReducesOnlyAbove(T, any, key, b, front[m - 1], f(n + m));
      c := front + [f(n + m)[|b|..]];
    }
  }

  /** All states met are below N. */
  ghost predicate StatesBelow(f: nat -> seq<nat>, N: nat) {
    forall n: nat, i :: 0 <= i < |f(n)| ==> f(n)[i] < N
  }

  /** Two floors with the same two states on top. */
  lemma FloorsCircle(T: Tables, any: bool, key: nat, f: nat -> seq<nat>, N: nat, n: nat, l: nat)
    requires Shaped(T) && Endless(T, any, key, f) && StatesBelow(f, N) && n < l && IsFloor(f, n)
    requires |f(n)| >= 2 && |f(l)| >= 2 && TopPair(f(n), N) == TopPair(f(l), N)
    ensures var s := f(n); Circles(T, any, s[|s| - 2], s[|s| - 1], key)
  {
    hide Reduces, Shaped;
    var s, t := f(n), f(l);
    var p, q, b := s[|s| - 2], s[|s| - 1], s[..|s| - 2];
    PairUnique(p, q, t[|t| - 2], t[|t| - 1], N);
    assert s == b + [p, q];
    var c := AboveFloor(T, any, key, f, n, b, p, q, l - n);
    var r := c[|c| - 1];
    assert t == b + r && r == r[..|r| - 2] + [p, q];
    assert CirclesBy(T, any, p, q, key, c, r[..|r| - 2]);
  }

  lemma LaterTwo(T: Tables, any: bool, key: nat, f: nat -> seq<nat>, n: nat)
    requires Shaped(T) && Endless(T, any, key, f) && n > 0
    ensures |f(n)| >= 2
  {
    assert Turns(T, any, key, f, n - 1);
  }

  /** Reductions without end come to two states that circle. */
  lemma EndlessCircles(T: Tables, any: bool, key: nat, f: nat -> seq<nat>, N: nat) returns (n: nat)
    requires Shaped(T) && Endless(T, any, key, f) && StatesBelow(f, N)
    ensures var s := f(n); |s| >= 2 && Circles(T, any, s[|s| - 2], s[|s| - 1], key)
  {
    hide Shaped, Endless, Circles;
    var ns := Floors(f, N * N + 1);
    forall i | 0 <= i < |ns|
      ensures |f(ns[i])| >= 2 && TopPair(f(ns[i]), N) < N * N
    {
      var s := f(ns[i]);
      LaterTwo(T, any, key, f, ns[i]);
      PairBelow(s[|s| - 2], s[|s| - 1], N);
    }
    var cs := seq(|ns|, i requires 0 <= i < |ns| => TopPair(f(ns[i]), N));
    var i, j := TwoEqual(cs, N * N);
    n := ns[i];
    FloorsCircle(T, any, key, f, N, ns[i], ns[j]);
  }

  /** The rule tried is complete in its state. */
  lemma TriedIsSound(g: Packed, A: Automaton, T: Tables, any: bool, q: nat, key: nat, y: int)
    requires TablesSound(g, A, T) && Shaped(T) && q < |A.states| && Tries(T, any, q, key, y)
    ensures ReduceSound(g, A, q, y)
  {
    hide Canonical, ReduceSound, ShiftSound, ListSound, NaturalCodes, Decode, Completeness.IsAlternative;
    assert StateSound(g, A, T, q);
    if T.defred[q] == 0 && Peek(T, T.cindex, q, key).Some? {
      var e := Peek(T, T.cindex, q, key).value;
      if any {
        var j: nat :| Completeness.IsAlternative(T, e, j, Trials.DoReduce(y));
        ListedIsSound(g, A, T, q, key, e, j, y);
      } else {
        FirstIsSound(g, A, T, q, key, e);
      }
    }
  }

  /** A list that starts with the mark starts with a reduction. */
  lemma FirstIsSound(g: Packed, A: Automaton, T: Tables, q: nat, key: nat, e: int)
    requires ListSound(g, A, T, q, key, e) && 0 <= e && e + 1 < |T.ctable| && T.ctable[e] == -1
    ensures ReduceSound(g, A, q, T.ctable[e + 1])
  {
    var values, reduceFirst :| ListIs(g, A, T, q, key, e, values, reduceFirst);
    Trials.ListEntry(g, A, T, q, key, e, values, reduceFirst, 0);
    assert AlternativeSound(g, A, q, key, values, reduceFirst, 0);
  }

  lemma ListedIsSound(g: Packed, A: Automaton, T: Tables, q: nat, key: nat, e: nat, j: nat, y: int)
    requires ListSound(g, A, T, q, key, e) && Completeness.IsAlternative(T, e, j, Trials.DoReduce(y))
    ensures ReduceSound(g, A, q, y)
  {
    hide Decode, ReduceSound, ShiftSound;
    var values, reduceFirst :| ListIs(g, A, T, q, key, e, values, reduceFirst);
    Search.ListsDecode(g, A, T, q, key, e, values, reduceFirst);
    Trials.ListEntry(g, A, T, q, key, e, values, reduceFirst, j);
    assert AlternativeSound(g, A, q, key, values, reduceFirst, j);
  }

  /** Reductions stay on the paths of the automaton. */
  lemma ReducesPath(g: Packed, A: Automaton, T: Tables, any: bool, key: nat, s: seq<nat>, t: seq<nat>)
    requires TablesSound(g, A, T) && Shaped(T) && IsStatePath(A, s) && s[0] == 0 && Reduces(T, any, key, s, t)
    ensures IsStatePath(A, t) && t[0] == 0
  {
    hide Canonical, ItemsOf, Goto, StateSound, NaturalCodes, Tries;
    var y :| ReducesBy(T, any, key, s, t, y);
    TriedIsSound(g, A, T, any, s[|s| - 1], key, y);
    var q := LhsEntered(g, A, T, s, y);
    var below := s[..|s| - T.len[y]];
    Completeness.LhsPushed(g, A, T, below[|below| - 1], y, q);
    PathPrefix(A, s, |below|);
    PathSnoc(A, below, g.rlhs[y + 2], q);
  }

  /** The state over the left-hand side, above what a reduction uncovers. */
  lemma LhsEntered(g: Packed, A: Automaton, T: Tables, ss: seq<nat>, y: int) returns (q: nat)
    requires TablesSound(g, A, T) && IsStatePath(A, ss) && ss[0] == 0 && ReduceSound(g, A, ss[|ss| - 1], y)
    ensures 1 <= y && y + 2 < |g.rlhs| && y < |T.len| && 0 <= T.len[y] < |ss| &&
        Goto(A, ss[|ss| - 1 - T.len[y]], g.rlhs[y + 2], q)
  {
    hide Canonical, ItemsOf, Goto, StateSound, NaturalCodes;
    var r := y + 2;
    assert g.RuleShape(r);
    assert InRule(g, g.rrhs[r + 1] - 1, r);
    PathSpells(g, A, ss, g.rrhs[r + 1] - 1, r, |g.Rhs(r)|);
    q := LhsGoto(g, A, ss[|ss| - 1 - |g.Rhs(r)|], r);
  }

  lemma {:induction false} EndlessPath(g: Packed, A: Automaton, T: Tables, any: bool, key: nat, f: nat -> seq<nat>,
                                       n: nat)
    requires TablesSound(g, A, T) && Shaped(T) && Endless(T, any, key, f) && IsStatePath(A, f(0)) && f(0)[0] == 0
    ensures IsStatePath(A, f(n)) && f(n)[0] == 0
  {
    hide TablesSound, Shaped, Reduces, IsStatePath;
    if n > 0 {
      EndlessPath(g, A, T, any, key, f, n - 1);
      assert Turns(T, any, key, f, n - 1);
      ReducesPath(g, A, T, any, key, f(n - 1), f(n));
    }
  }

  /** No two states one entered from the other circle, whatever the next token. */
  ghost predicate NoCircles(A: Automaton, T: Tables, any: bool)
    requires Shaped(T)
  {
    forall p: nat, q: nat, X: nat, key: nat :: Goto(A, p, X, q) ==> !Circles(T, any, p, q, key)
  }

  /** Wherever the parser may stand, its reductions come to an end before the next token. */
  ghost predicate ReductionsEnd(A: Automaton, T: Tables, any: bool)
    requires Shaped(T)
  {
    forall f: nat -> seq<nat>, key: nat :: IsStatePath(A, f(0)) && f(0)[0] == 0 ==> !Endless(T, any, key, f)
  }

  lemma {:induction false} PathTo(g: Packed, A: Automaton, q: nat) returns (ss: seq<nat>)
    requires Canonical(g, A) && q < |A.states|
    ensures IsStatePath(A, ss) && ss[0] == 0 && ss[|ss| - 1] == q
    decreases q
  {
    if q == 0 {
      ss := [0];
    } else {
      assert EnteredEarlier(A.shifts, q);
      var p: nat :| p < q && p < |A.shifts| && q in A.shifts[p];
      var front := PathTo(g, A, p);
      ss := front + [q];
      assert Goto(A, p, A.states[q].accessing, q);
      PathSnoc(A, front, A.states[q].accessing, q);
    }
  }

  lemma CircleBelow(g: Packed, A: Automaton, T: Tables, any: bool, p: nat, q: nat, X: nat, key: nat)
    requires TablesSound(g, A, T) && Shaped(T) && Goto(A, p, X, q) && Circles(T, any, p, q, key)
    ensures !ReductionsEnd(A, T, any)
  {
    hide Circles, Endless, Shaped, StateSound;
    var ss := PathTo(g, A, p);
    PathSnoc(A, ss, X, q);
    var a := ss[..|ss| - 1];
    assert ss + [q] == a + [p, q];
    var f := CircleIsEndless(T, any, a, p, q, key);
  }

  /** Endless reductions from a stack of the automaton come to a transition that circles. */
  lemma CircleOnPath(g: Packed, A: Automaton, T: Tables, any: bool, key: nat, f: nat -> seq<nat>)
    returns (n: nat, X: nat)
    requires TablesSound(g, A, T) && Shaped(T) && Endless(T, any, key, f) && IsStatePath(A, f(0)) && f(0)[0] == 0
    ensures var s := f(n);
            |s| >= 2 && Circles(T, any, s[|s| - 2], s[|s| - 1], key) && Goto(A, s[|s| - 2], X, s[|s| - 1])
  {
    hide TablesSound, Circles, Goto, Shaped, Endless;
    forall n: nat, i | 0 <= i < |f(n)|
      ensures f(n)[i] < |A.states|
    {
      EndlessPath(g, A, T, any, key, f, n);
    }
    n := EndlessCircles(T, any, key, f, |A.states|);
    EndlessPath(g, A, T, any, key, f, n);
    var s, i := f(n), |f(n)| - 2;
    X := A.states[s[i + 1]].accessing;
    assert Goto(A, s[i], X, s[i + 1]);
  }

  /** Reductions always come to an end exactly if no transition of the automaton circles. */
  lemma ReductionsEndExactly(g: Packed, A: Automaton, T: Tables, any: bool)
    requires TablesSound(g, A, T) && Shaped(T)
    ensures ReductionsEnd(A, T, any) <==> NoCircles(A, T, any)
  {
    hide TablesSound, Circles, Endless, Shaped;
    if NoCircles(A, T, any) {
      forall f: nat -> seq<nat>, key: nat | IsStatePath(A, f(0)) && f(0)[0] == 0
        ensures !Endless(T, any, key, f)
      {
        if Endless(T, any, key, f) {
          var n, X := CircleOnPath(g, A, T, any, key, f);
        }
      }
    }
    forall p: nat, q: nat, X: nat, key: nat | ReductionsEnd(A, T, any) && Goto(A, p, X, q)
      ensures !Circles(T, any, p, q, key)
    {
      if Circles(T, any, p, q, key) {
        CircleBelow(g, A, T, any, p, q, X, key);
      }
    }
  }

  /** A rule that rewrites a symbol to itself, tried first, circles. */
  lemma SelfRuleCircles(T: Tables, p: nat, q: nat, key: nat, y: int)
    requires Shaped(T) && RuleTried(T, q, key) == Some(y) && 0 <= y < |T.len| && T.len[y] == 1 &&
        0 <= T.lhs[y] < |T.gindex|
    requires !(p == 0 && T.lhs[y] == 0) && T.GotoTo(p, T.lhs[y]) == q
    ensures Circles(T, false, p, q, key)
  {
    assert [p, q][..1] == [p] && [p] + [q] == [p, q] == [] + [p, q];
    assert Uncovered(T, [p, q], key, y) == Some([p] + [q]);
    assert ReducesBy(T, false, key, [p, q], [p, q], y);
    assert CirclesBy(T, false, p, q, key, [[p, q], [p, q]], []);
  }

  /** An empty rule reduced again in the state that its own symbol enters makes the stack grow for ever. */
  lemma EmptyRuleCircles(T: Tables, q: nat, key: nat, y: int)
    requires Shaped(T) && RuleTried(T, q, key) == Some(y) && 0 <= y < |T.len| && T.len[y] == 0 &&
        0 <= T.lhs[y] < |T.gindex|
    requires q != 0 && T.GotoTo(q, T.lhs[y]) == q
    ensures Circles(T, false, q, q, key)
  {
    assert [q, q][..2] == [q, q] && [q, q] + [q] == [q, q, q] == [q] + [q, q];
    assert Uncovered(T, [q, q], key, y) == Some([q, q] + [q]);
    assert ReducesBy(T, false, key, [q, q], [q, q, q], y);
    assert CirclesBy(T, false, q, q, key, [[q, q], [q, q, q]], [q]);
  }
}

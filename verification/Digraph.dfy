/** lalr.c, digraph and traverse: one depth-first pass that finds strongly connected
    components with a stack of vertices, ors the rows of F along every edge, and copies the
    row of a component's root to its other members. */
module DigraphPass {
  import opened Reachability
  import opened BitRows

  /** An adjacency list per vertex; an absent list is an empty one. */
  type Adjacency = seq<seq<nat>>

  ghost predicate WellFormed(R: Adjacency) {
    forall v, k :: 0 <= v < |R| && 0 <= k < |R[v]| ==> R[v][k] < |R|
  }

  ghost function EdgeRel(R: Adjacency): Rel {
    (a: nat, b: nat) => a < |R| && b in R[a]
  }

  /** Element t is in the initial row of some vertex that v reaches. */
  ghost predicate Flows(R: Adjacency, F0: seq<set<nat>>, v: nat, t: nat) {
    exists w: nat :: w < |F0| && Reach(EdgeRel(R), v, w) && t in F0[w]
  }

  /** The globals of the pass: F as sets, INDEX, and VERTICES[1..top]. */
  datatype State = State(rows: seq<set<nat>>, index: seq<nat>, stack: seq<nat>)

  function Infinity(n: nat): nat {
    n + 2
  }

  ghost predicate White(s: State, v: nat)
    requires v < |s.index|
  {
    s.index[v] == 0
  }

  ghost predicate Black(s: State, v: nat)
    requires v < |s.index|
  {
    s.index[v] == Infinity(|s.index|)
  }

  /** The shape of the three arrays: the vertices with a finite nonzero INDEX are the stack. */
  ghost predicate Shape(R: Adjacency, F0: seq<set<nat>>, s: State) {
    && WellFormed(R) && |F0| == |R| == |s.rows| == |s.index|
    && (forall p :: 0 <= p < |s.stack| ==> s.stack[p] < |R| && 0 < s.index[s.stack[p]] <= p + 1)
    && (forall p, q :: 0 <= p < q < |s.stack| ==> s.stack[p] != s.stack[q])
    && (forall v :: 0 <= v < |R| ==> White(s, v) || Black(s, v) || v in s.stack)
    && |s.stack| <= |R|
  }

  /** The rows flowing into v have reached its own row. */
  ghost predicate Final(R: Adjacency, F0: seq<set<nat>>, s: State, v: nat)
    requires v < |s.rows|
  {
    forall t: nat :: t in s.rows[v] <==> Flows(R, F0, v, t)
  }

  /** A vertex on the stack holds its own initial row, nothing that does not flow to it, and
      INDEX names a vertex it reaches. */
  ghost predicate Pending(R: Adjacency, F0: seq<set<nat>>, s: State, p: nat)
    requires Shape(R, F0, s) && p < |s.stack|
  {
    var v := s.stack[p];
    && F0[v] <= s.rows[v]
    && (forall t :: t in s.rows[v] ==> Flows(R, F0, v, t))
    && Reach(EdgeRel(R), v, s.stack[s.index[v] - 1])
  }

  /** The edge v -> x has been followed: x was visited, a finished row was absorbed, and a
      stacked x bounds INDEX from above. */
  ghost predicate Followed(R: Adjacency, F0: seq<set<nat>>, s: State, v: nat, x: nat)
    requires Shape(R, F0, s) && v < |R| && x < |R|
  {
    && !White(s, x)
    && (Black(s, x) ==> s.rows[x] <= s.rows[v])
    && (forall q :: 0 <= q < |s.stack| && s.stack[q] == x ==> s.index[v] <= q + 1)
  }

  /** The first n edges of v have been followed. */
  ghost predicate Explored(R: Adjacency, F0: seq<set<nat>>, s: State, v: nat, n: nat)
    requires Shape(R, F0, s) && v < |R| && n <= |R[v]|
  {
    forall k :: 0 <= k < n ==> Followed(R, F0, s, v, R[v][k])
  }

  /** The invariant of the pass; active holds the vertices whose traverse call is open. */
  ghost predicate Inv(R: Adjacency, F0: seq<set<nat>>, s: State, active: set<nat>) {
    && Shape(R, F0, s)
    && (forall v: nat :: v < |R| && White(s, v) ==> s.rows[v] == F0[v])
    && (forall v: nat :: v < |R| && Black(s, v) ==> Final(R, F0, s, v))
    && (forall v: nat, k :: v < |R| && 0 <= k < |R[v]| && Black(s, v) ==> Black(s, R[v][k]))
    && (forall p: nat :: p < |s.stack| ==> Pending(R, F0, s, p))
    && (forall p: nat :: p < |s.stack| && s.stack[p] !in active ==>
          Explored(R, F0, s, s.stack[p], |R[s.stack[p]]|) && s.index[s.stack[p]] <= p)
    && (forall v :: v in active ==> v in s.stack)
  }

  /** What a call that opened with s leaves alone: the stack it found, with those rows and
      indexes, and every finished vertex. */
  ghost predicate Extends(s: State, s': State) {
    && |s.index| == |s'.index| == |s.rows| == |s'.rows|
    && s.stack <= s'.stack
    && (forall v :: v in s.stack && v < |s.index| ==> s'.index[v] == s.index[v] && s'.rows[v] == s.rows[v])
    && (forall v: nat :: v < |s.index| && Black(s, v) ==> Black(s', v) && s'.rows[v] == s.rows[v])
    && (forall v: nat :: v < |s.index| && White(s', v) ==> White(s, v))
  }

  /** The stack from position h on belongs to vertex i at h: all of it is reached from i, no
      INDEX there is below that of i, and all its rows are inside the row of i. */
  ghost predicate Segment(R: Adjacency, F0: seq<set<nat>>, s: State, h: nat, active: set<nat>)
    requires Shape(R, F0, s) && h < |s.stack|
  {
    forall p :: h < p < |s.stack| ==> InSegment(R, F0, s, h, active, p)
  }

  ghost predicate InSegment(R: Adjacency, F0: seq<set<nat>>, s: State, h: nat, active: set<nat>, p: nat)
    requires Shape(R, F0, s) && h < |s.stack| && p < |s.stack|
  {
    var i := s.stack[h];
    && s.stack[p] !in active
    && Reach(EdgeRel(R), i, s.stack[p])
    && s.index[i] <= s.index[s.stack[p]]
    && s.rows[s.stack[p]] <= s.rows[i]
  }

  ghost function Push(s: State, i: nat): State
    requires i < |s.index|
  {
    s.(stack := s.stack + [i], index := s.index[i := |s.stack| + 1])
  }

  lemma PushShape(R: Adjacency, F0: seq<set<nat>>, s: State, i: nat)
    requires Shape(R, F0, s) && i < |R| && White(s, i)
    ensures Shape(R, F0, Push(s, i)) && Extends(s, Push(s, i)) && i !in s.stack
  {
    var s' := Push(s, i);
    assert forall p :: 0 <= p < |s.stack| ==> s.stack[p] != i;
    Pigeonhole(s'.stack, |R|);
    forall v | 0 <= v < |R| && !White(s', v) && !Black(s', v)
      ensures v in s'.stack
    {
      if v == i {
        assert s'.stack[|s.stack|] == i;
      } else {
        assert v in s.stack;
      }
    }
  }

  lemma PushKeepsInv(R: Adjacency, F0: seq<set<nat>>, s: State, active: set<nat>, i: nat)
    requires Inv(R, F0, s, active) && i < |R| && White(s, i)
    ensures Inv(R, F0, Push(s, i), active + {i}) && Extends(s, Push(s, i))
    ensures Segment(R, F0, Push(s, i), |s.stack|, active)
  {
    var s' := Push(s, i);
    PushShape(R, F0, s, i);
    ReachRefl(EdgeRel(R), i);
    assert forall t :: t in F0[i] ==> Flows(R, F0, i, t);
    forall p: nat | p < |s'.stack|
      ensures Pending(R, F0, s', p)
    {
      if p < |s.stack| {
        PendingStays(R, F0, s, s', p);
      }
    }
    forall p: nat | p < |s'.stack| && s'.stack[p] !in active + {i}
      ensures Explored(R, F0, s', s'.stack[p], |R[s'.stack[p]]|) && s'.index[s'.stack[p]] <= p
    {
      ExploredStays(R, F0, s, s', s.stack[p], |R[s.stack[p]]|);
    }
    forall v: nat | v < |R| && Black(s', v)
      ensures Final(R, F0, s', v) && forall k :: 0 <= k < |R[v]| ==> Black(s', R[v][k])
    {
      assert Final(R, F0, s, v);
    }
    assert s'.stack[|s.stack|] == i;
  }

  lemma PendingStays(R: Adjacency, F0: seq<set<nat>>, s: State, s': State, p: nat)
    requires Shape(R, F0, s) && Shape(R, F0, s') && Extends(s, s')
    requires p < |s.stack| && Pending(R, F0, s, p)
    ensures Pending(R, F0, s', p)
  {
    assert s'.stack[p] == s.stack[p];
    assert s'.stack[s.index[s.stack[p]] - 1] == s.stack[s.index[s.stack[p]] - 1];
  }

  lemma FollowedStays(R: Adjacency, F0: seq<set<nat>>, s: State, s': State, v: nat, x: nat)
    requires Shape(R, F0, s) && Shape(R, F0, s') && Extends(s, s')
    requires v < |R| && x < |R| && v in s.stack && Followed(R, F0, s, v, x)
    ensures Followed(R, F0, s', v, x)
  {
    if Black(s, x) {
      assert x !in s'.stack;
    } else {
      var p :| 0 <= p < |s.stack| && s.stack[p] == x;
      assert s'.stack[p] == x;
    }
  }

  lemma ExploredStays(R: Adjacency, F0: seq<set<nat>>, s: State, s': State, v: nat, n: nat)
    requires Shape(R, F0, s) && Shape(R, F0, s') && Extends(s, s')
    requires v < |R| && n <= |R[v]| && v in s.stack && Explored(R, F0, s, v, n)
    ensures Explored(R, F0, s', v, n)
  {
    forall k | 0 <= k < n
      ensures Followed(R, F0, s', v, R[v][k])
    {
      FollowedStays(R, F0, s, s', v, R[v][k]);
    }
  }

  function Min(a: nat, b: nat): nat {
    if a > b then b else a
  }

  /** Following the edge i -> j once j has been visited. */
  ghost function Absorb(s: State, i: nat, j: nat): State
    requires i < |s.index| && i < |s.rows| && j < |s.index| && j < |s.rows|
  {
    s.(index := s.index[i := Min(s.index[i], s.index[j])], rows := s.rows[i := s.rows[i] + s.rows[j]])
  }

  lemma FlowsAlong(R: Adjacency, F0: seq<set<nat>>, i: nat, j: nat)
    requires i < |R| && j in R[i]
    ensures forall t: nat :: Flows(R, F0, j, t) ==> Flows(R, F0, i, t)
  {
    forall w: nat | Reach(EdgeRel(R), j, w)
      ensures Reach(EdgeRel(R), i, w)
    {
      ReachEdge(EdgeRel(R), i, j);
      ReachTrans(EdgeRel(R), i, j, w);
    }
  }

  lemma AbsorbKeepsInv(R: Adjacency, F0: seq<set<nat>>, s: State, active: set<nat>, h: nat, j: nat)
    requires Inv(R, F0, s, active) && h < |s.stack| && s.stack[h] in active
    requires j in R[s.stack[h]] && !White(s, j)
    ensures Inv(R, F0, Absorb(s, s.stack[h], j), active)
  {
    hide Flows, Followed, Reach, EdgeRel;
    var i := s.stack[h];
    var s' := Absorb(s, i, j);
    assert Shape(R, F0, s');
    forall p: nat | p < |s.stack|
      ensures Pending(R, F0, s', p)
    {
      assert Pending(R, F0, s, p);
      if p == h {
        AbsorbPending(R, F0, s, h, j);
      }
    }
    forall p: nat | p < |s.stack| && s.stack[p] !in active
      ensures Explored(R, F0, s', s.stack[p], |R[s.stack[p]]|)
    {
      AbsorbExplored(R, F0, s, i, h, j, s.stack[p], |R[s.stack[p]]|);
    }
    forall v: nat | v < |R| && Black(s', v)
      ensures Final(R, F0, s', v)
    {
      assert Final(R, F0, s, v);
    }
  }

  lemma AbsorbExplored(R: Adjacency, F0: seq<set<nat>>, s: State, i: nat, h: nat, j: nat, v: nat, n: nat)
    requires Shape(R, F0, s) && h < |s.stack| && s.stack[h] == i && j < |R|
    requires Shape(R, F0, Absorb(s, i, j))
    requires v < |R| && v != i && n <= |R[v]| && Explored(R, F0, s, v, n)
    ensures Explored(R, F0, Absorb(s, i, j), v, n)
  {
    var s' := Absorb(s, i, j);
    forall k | 0 <= k < n
      ensures Followed(R, F0, s', v, R[v][k])
    {
      assert Followed(R, F0, s, v, R[v][k]);
    }
  }

  lemma AbsorbPending(R: Adjacency, F0: seq<set<nat>>, s: State, h: nat, j: nat)
    requires Shape(R, F0, s) && h < |s.stack| && j in R[s.stack[h]] && j < |R| && !White(s, j)
    requires forall p: nat :: p < |s.stack| ==> Pending(R, F0, s, p)
    requires Black(s, j) ==> Final(R, F0, s, j)
    requires Shape(R, F0, Absorb(s, s.stack[h], j))
    ensures Pending(R, F0, Absorb(s, s.stack[h], j), h)
  {
    var i := s.stack[h];
    assert Pending(R, F0, s, h);
    FlowsAlong(R, F0, i, j);
    if !Black(s, j) {
      var q: nat :| q < |s.stack| && s.stack[q] == j;
      assert Pending(R, F0, s, q);
      ReachEdge(EdgeRel(R), i, j);
      ReachTrans(EdgeRel(R), i, j, s.stack[s.index[j] - 1]);
    }
  }

  /** What traverse(i), called on s with the given open calls, leaves behind: either the
      component of i was finished and the stack is back to what it was, or i stays on the
      stack, bound to an open call below it, with its segment above. */
  ghost predicate Traversed(R: Adjacency, F0: seq<set<nat>>, s: State, s': State, active: set<nat>, i: nat) {
    && Inv(R, F0, s', active) && Extends(s, s') && i < |R| && !White(s', i)
    && if |s'.stack| == |s.stack| then Black(s', i)
       else |s'.stack| > |s.stack| && s'.stack[|s.stack|] == i && s'.index[i] <= |s.stack|
            && Segment(R, F0, s', |s.stack|, active)
  }

  /** The loop invariant of traverse(i) opened on s0: k edges of i have been followed. */
  ghost predicate Visiting(R: Adjacency, F0: seq<set<nat>>, s0: State, s: State, active: set<nat>, i: nat, k: nat) {
    && Inv(R, F0, s, active + {i}) && Extends(s0, s)
    && |s0.stack| < |s.stack| && s.stack[|s0.stack|] == i && i !in s0.stack && i !in active
    && Segment(R, F0, s, |s0.stack|, active)
    && k <= |R[i]| && Explored(R, F0, s, i, k)
  }

  /** One edge: s1 is s after the recursive call, if there was one. */
  lemma VisitEdge(R: Adjacency, F0: seq<set<nat>>, s0: State, s: State, s1: State, active: set<nat>, i: nat, k: nat)
    requires Visiting(R, F0, s0, s, active, i, k) && |s0.index| == |R| && White(s0, i)
    requires i < |R| && k < |R[i]|
    requires if White(s, R[i][k]) then Traversed(R, F0, s, s1, active + {i}, R[i][k]) else s1 == s
    ensures Visiting(R, F0, s0, Absorb(s1, i, R[i][k]), active, i, k + 1)
  {
    var j := R[i][k];
    var h := |s0.stack|;
    var s2 := Absorb(s1, i, j);
    assert s.stack <= s1.stack && s1.stack[h] == i && i in s.stack;
    AbsorbKeepsInv(R, F0, s1, active + {i}, h, j);
    ExploredStays(R, F0, s, s1, i, k);
    AbsorbOwnEdges(R, F0, s1, i, h, k);
    if White(s, j) {
      VisitSegmentNew(R, F0, s0, s, s1, active, i, k);
    }
    VisitSegmentOld(R, F0, s0, s, s1, active, i, j);
    assert Segment(R, F0, s2, h, active) by {
      forall p | h < p < |s2.stack|
        ensures InSegment(R, F0, s2, h, active, p)
      {
        assert p < |s.stack| ==> InSegment(R, F0, s2, h, active, p);
      }
    }
    ExtendsTrans(s0, s, s1);
    assert Extends(s0, s2);
  }

  lemma ExtendsTrans(a: State, b: State, c: State)
    requires Extends(a, b) && Extends(b, c)
    ensures Extends(a, c)
  {
    assert forall v :: v in a.stack ==> v in b.stack;
  }

  lemma AbsorbOwnEdges(R: Adjacency, F0: seq<set<nat>>, s: State, i: nat, h: nat, k: nat)
    requires Shape(R, F0, s) && h < |s.stack| && s.stack[h] == i && k < |R[i]| && !White(s, R[i][k])
    requires Shape(R, F0, Absorb(s, i, R[i][k])) && Explored(R, F0, s, i, k)
    ensures Explored(R, F0, Absorb(s, i, R[i][k]), i, k + 1)
  {
    var s' := Absorb(s, i, R[i][k]);
    forall m | 0 <= m < k + 1
      ensures Followed(R, F0, s', i, R[i][m])
    {
      if m < k {
        assert Followed(R, F0, s, i, R[i][m]);
      }
    }
  }

  lemma VisitSegmentOld(R: Adjacency, F0: seq<set<nat>>, s0: State, s: State, s1: State, active: set<nat>, i: nat,
                        j: nat)
    requires Shape(R, F0, s) && Shape(R, F0, s1) && Extends(s, s1) && i < |R| && j < |R|
    requires |s0.stack| < |s.stack| && s.stack[|s0.stack|] == i && Segment(R, F0, s, |s0.stack|, active)
    requires Shape(R, F0, Absorb(s1, i, j))
    ensures forall p :: |s0.stack| < p < |s.stack| ==> InSegment(R, F0, Absorb(s1, i, j), |s0.stack|, active, p)
  {
    var h := |s0.stack|;
    var s2 := Absorb(s1, i, j);
    forall p | h < p < |s.stack|
      ensures InSegment(R, F0, s2, h, active, p)
    {
      var v := s.stack[p];
      assert InSegment(R, F0, s, h, active, p);
      assert s1.stack[p] == v && s1.stack[h] == i && v != i;
      assert s1.index[v] == s.index[v] && s1.rows[v] == s.rows[v];
    }
  }

  lemma VisitSegmentNew(R: Adjacency, F0: seq<set<nat>>, s0: State, s: State, s1: State, active: set<nat>, i: nat,
                        k: nat)
    requires Shape(R, F0, s) && i < |R| && k < |R[i]|
    requires |s0.stack| < |s.stack| && s.stack[|s0.stack|] == i
    requires Traversed(R, F0, s, s1, active + {i}, R[i][k])
    requires White(s, R[i][k]) && forall v :: v in active ==> v in s.stack
    requires Shape(R, F0, Absorb(s1, i, R[i][k]))
    ensures forall p :: |s.stack| <= p < |s1.stack| ==> InSegment(R, F0, Absorb(s1, i, R[i][k]), |s0.stack|, active, p)
  {
    var j := R[i][k];
    var h := |s0.stack|;
    var s2 := Absorb(s1, i, j);
    forall p | |s.stack| <= p < |s1.stack|
      ensures InSegment(R, F0, s2, h, active, p)
    {
      var v := s1.stack[p];
      assert s1.stack[|s.stack|] == j && s1.stack[h] == i && v != i;
      ReachEdge(EdgeRel(R), i, j);
      if p > |s.stack| {
        assert InSegment(R, F0, s1, |s.stack|, active + {i}, p);
        ReachTrans(EdgeRel(R), i, j, v);
      } else {
        assert j !in active;
      }
    }
  }

  /** The state with its top vertex taken off, finished, with the row of i. */
  ghost function Popped(s: State, i: nat): State
    requires s.stack != [] && s.stack[|s.stack| - 1] < |s.rows| == |s.index| && i < |s.rows|
  {
    var j := s.stack[|s.stack| - 1];
    State(s.rows[j := s.rows[i]], s.index[j := Infinity(|s.index|)], s.stack[..|s.stack| - 1])
  }

  /** Popping the stack down to length q: each popped vertex is finished with the row of i. */
  ghost function Pop(s: State, q: nat, i: nat): State
    requires q <= |s.stack| && i < |s.rows|
  {
    State(
      seq(|s.rows|, v requires 0 <= v < |s.rows| => if v in s.stack[q..] then s.rows[i] else s.rows[v]),
      seq(|s.index|, v requires 0 <= v < |s.index| => if v in s.stack[q..] then Infinity(|s.index|) else s.index[v]),
      s.stack[..q])
  }

  /** Every vertex of a closed segment reaches the vertex at its foot. */
  lemma {:induction false} SegmentReachesFoot(R: Adjacency, F0: seq<set<nat>>, s: State, active: set<nat>, h: nat,
                                              p: nat)
    requires h <= p < |s.stack| && Inv(R, F0, s, active + {s.stack[h]})
    requires Segment(R, F0, s, h, active) && s.index[s.stack[h]] == h + 1
    ensures Reach(EdgeRel(R), s.stack[p], s.stack[h])
    decreases p
  {
    if p == h {
      ReachRefl(EdgeRel(R), s.stack[h]);
    } else {
      assert InSegment(R, F0, s, h, active, p);
      assert Pending(R, F0, s, p);
      var q := s.index[s.stack[p]] - 1;
      assert h <= q < p;
      SegmentReachesFoot(R, F0, s, active, h, q);
      ReachTrans(EdgeRel(R), s.stack[p], s.stack[q], s.stack[h]);
    }
  }

  /** The vertices of a closed segment, and the finished ones whose rows are inside row i. */
  ghost function Covered(s: State, h: nat, i: nat): iset<nat>
    requires h < |s.stack| && i < |s.rows| && |s.index| == |s.rows|
  {
    iset v: nat | v in s.stack[h..] || (v < |s.index| && Black(s, v) && s.rows[v] <= s.rows[i])
  }

  lemma SuccessorInSegment(R: Adjacency, F0: seq<set<nat>>, s: State, h: nat, active: set<nat>, p: nat, k: nat)
    requires h <= p < |s.stack| && Inv(R, F0, s, active + {s.stack[h]}) && Segment(R, F0, s, h, active)
    requires Explored(R, F0, s, s.stack[h], |R[s.stack[h]]|) && s.index[s.stack[h]] == h + 1
    requires k < |R[s.stack[p]]|
    ensures R[s.stack[p]][k] in Covered(s, h, s.stack[h])
  {
    var v := s.stack[p];
    var x := R[v][k];
    if p > h {
      assert InSegment(R, F0, s, h, active, p);
      assert v != s.stack[h];
    }
    assert Explored(R, F0, s, v, |R[v]|);
    assert Followed(R, F0, s, v, x);
    if !Black(s, x) {
      var q: nat :| q < |s.stack| && s.stack[q] == x;
      assert h <= q;
      assert s.stack[h..][q - h] == x;
    }
  }

  lemma CoveredIsClosed(R: Adjacency, F0: seq<set<nat>>, s: State, h: nat, active: set<nat>)
    requires h < |s.stack| && Inv(R, F0, s, active + {s.stack[h]}) && Segment(R, F0, s, h, active)
    requires Explored(R, F0, s, s.stack[h], |R[s.stack[h]]|) && s.index[s.stack[h]] == h + 1
    ensures ClosedUnder(EdgeRel(R), Covered(s, h, s.stack[h]))
  {
    var S := Covered(s, h, s.stack[h]);
    forall v: nat, x: nat | v in S && EdgeRel(R)(v, x)
      ensures x in S
    {
      var k: nat :| k < |R[v]| && R[v][k] == x;
      if v in s.stack[h..] {
        var p: nat :| p < |s.stack[h..]| && s.stack[h..][p] == v;
        SuccessorInSegment(R, F0, s, h, active, h + p, k);
      } else {
        FlowsAlong(R, F0, v, x);
        assert Final(R, F0, s, v) && Final(R, F0, s, x);
      }
    }
  }

  /** At the root of a component the row is complete, for the root and for its segment. */
  lemma RootIsFinal(R: Adjacency, F0: seq<set<nat>>, s: State, h: nat, active: set<nat>)
    requires h < |s.stack| && Inv(R, F0, s, active + {s.stack[h]}) && Segment(R, F0, s, h, active)
    requires Explored(R, F0, s, s.stack[h], |R[s.stack[h]]|) && s.index[s.stack[h]] == h + 1
    ensures forall t: nat :: t in s.rows[s.stack[h]] <==> Flows(R, F0, s.stack[h], t)
  {
    var i := s.stack[h];
    var S := Covered(s, h, i);
    CoveredIsClosed(R, F0, s, h, active);
    assert Pending(R, F0, s, h);
    forall t: nat | Flows(R, F0, i, t)
      ensures t in s.rows[i]
    {
      var w: nat :| w < |F0| && Reach(EdgeRel(R), i, w) && t in F0[w];
      assert s.stack[h..][0] == i;
      ClosedKeepsReach(EdgeRel(R), S, i, w);
      if w in s.stack[h..] {
        var p: nat :| p < |s.stack[h..]| && s.stack[h..][p] == w;
        assert Pending(R, F0, s, h + p);
        assert p > 0 ==> InSegment(R, F0, s, h, active, h + p);
      } else {
        ReachRefl(EdgeRel(R), w);
        assert Flows(R, F0, w, t);
        assert Final(R, F0, s, w);
      }
    }
  }

  lemma SegmentFlows(R: Adjacency, F0: seq<set<nat>>, s: State, h: nat, active: set<nat>, p: nat)
    requires h <= p < |s.stack| && Inv(R, F0, s, active + {s.stack[h]}) && Segment(R, F0, s, h, active)
    requires s.index[s.stack[h]] == h + 1
    ensures forall t: nat :: Flows(R, F0, s.stack[p], t) <==> Flows(R, F0, s.stack[h], t)
  {
    var i, v := s.stack[h], s.stack[p];
    SegmentReachesFoot(R, F0, s, active, h, p);
    ReachRefl(EdgeRel(R), i);
    assert p > h ==> InSegment(R, F0, s, h, active, p);
    forall w: nat
      ensures Reach(EdgeRel(R), v, w) <==> Reach(EdgeRel(R), i, w)
    {
      if Reach(EdgeRel(R), i, w) {
        ReachTrans(EdgeRel(R), v, i, w);
      }
      if Reach(EdgeRel(R), v, w) {
        ReachTrans(EdgeRel(R), i, v, w);
      }
    }
  }

  lemma PopShape(R: Adjacency, F0: seq<set<nat>>, s: State, h: nat, i: nat)
    requires Shape(R, F0, s) && h <= |s.stack| && i < |s.rows|
    ensures Shape(R, F0, Pop(s, h, i))
    ensures forall p :: 0 <= p < h ==> s.stack[p] !in s.stack[h..]
  {
    var s' := Pop(s, h, i);
    forall v | 0 <= v < |R| && !White(s', v) && !Black(s', v)
      ensures v in s'.stack
    {
      assert v in s.stack;
      assert s.stack == s.stack[..h] + s.stack[h..];
    }
  }

  lemma PopFinal(R: Adjacency, F0: seq<set<nat>>, s: State, h: nat, active: set<nat>)
    requires h < |s.stack| && Inv(R, F0, s, active + {s.stack[h]}) && Segment(R, F0, s, h, active)
    requires Explored(R, F0, s, s.stack[h], |R[s.stack[h]]|) && s.index[s.stack[h]] == h + 1
    ensures var s' := Pop(s, h, s.stack[h]);
            forall v: nat :: v < |R| && Black(s', v) ==>
              Final(R, F0, s', v) && forall k :: 0 <= k < |R[v]| ==> Black(s', R[v][k])
  {
    var i := s.stack[h];
    var s' := Pop(s, h, i);
    RootIsFinal(R, F0, s, h, active);
    forall v: nat | v < |R| && Black(s', v)
      ensures Final(R, F0, s', v) && forall k :: 0 <= k < |R[v]| ==> Black(s', R[v][k])
    {
      if v in s.stack[h..] {
        var p: nat :| p < |s.stack[h..]| && s.stack[h..][p] == v;
        SegmentFlows(R, F0, s, h, active, h + p);
        forall k: nat | k < |R[v]|
          ensures Black(s', R[v][k])
        {
          SuccessorInSegment(R, F0, s, h, active, h + p, k);
        }
      } else {
        assert Final(R, F0, s, v);
      }
    }
  }

  lemma PopExtends(R: Adjacency, F0: seq<set<nat>>, s0: State, s: State, i: nat)
    requires Shape(R, F0, s0) && Shape(R, F0, s) && Extends(s0, s) && i < |R|
    ensures Extends(s0, Pop(s, |s0.stack|, i))
  {
    hide Shape;
    SameSizes(R, F0, s0);
    SameSizes(R, F0, s);
    var h := |s0.stack|;
    var s' := Pop(s, h, i);
    PopShape(R, F0, s, h, i);
    assert s'.stack == s0.stack;
    forall v | v in s0.stack && v < |R|
      ensures s'.index[v] == s0.index[v] && s'.rows[v] == s0.rows[v]
    {
      var p: nat :| p < h && s0.stack[p] == v;
      assert s.stack[p] == v;
    }
    forall v: nat | v < |R| && Black(s0, v)
      ensures Black(s', v) && s'.rows[v] == s0.rows[v]
    {
      BlackIsOffStack(R, F0, s, v);
    }
    forall v: nat | v < |R| && White(s', v)
      ensures White(s0, v)
    {
      assert White(s, v);
    }
  }

  lemma SameSizes(R: Adjacency, F0: seq<set<nat>>, s: State)
    requires Shape(R, F0, s)
    ensures |s.rows| == |s.index| == |R|
  {}

  lemma BlackIsOffStack(R: Adjacency, F0: seq<set<nat>>, s: State, v: nat)
    requires Shape(R, F0, s) && v < |R| && Black(s, v)
    ensures v !in s.stack
  {}

  /** Closing a component: traverse(i) ends with INDEX[i] still equal to its height. */
  lemma CloseComponent(R: Adjacency, F0: seq<set<nat>>, s0: State, s: State, active: set<nat>, i: nat)
    requires i < |R| && Inv(R, F0, s0, active) && White(s0, i) && Visiting(R, F0, s0, s, active, i, |R[i]|)
    requires s.index[i] == |s0.stack| + 1
    ensures Traversed(R, F0, s0, Pop(s, |s0.stack|, i), active, i)
  {
    var h := |s0.stack|;
    var s' := Pop(s, h, i);
    PopShape(R, F0, s, h, i);
    PopExtends(R, F0, s0, s, i);
    assert s'.stack == s0.stack;
    assert s.stack[h..][0] == i;
    PopFinal(R, F0, s, h, active);
    forall p: nat | p < h
      ensures Pending(R, F0, s', p)
    {
      PendingStays(R, F0, s0, s', p);
    }
    forall p: nat | p < h && s'.stack[p] !in active
      ensures Explored(R, F0, s', s'.stack[p], |R[s'.stack[p]]|) && s'.index[s'.stack[p]] <= p
    {
      ExploredStays(R, F0, s0, s', s0.stack[p], |R[s0.stack[p]]|);
    }
  }

  /** Otherwise i stays on the stack, as an explored vertex bound below its height. */
  lemma LeaveOnStack(R: Adjacency, F0: seq<set<nat>>, s0: State, s: State, active: set<nat>, i: nat)
    requires i < |R| && Inv(R, F0, s0, active) && White(s0, i) && Visiting(R, F0, s0, s, active, i, |R[i]|)
    requires s.index[i] != |s0.stack| + 1
    ensures Traversed(R, F0, s0, s, active, i)
  {
    forall v | v in active
      ensures v in s.stack
    {
      assert v in active + {i};
    }
  }

  ghost function Whites(s: State): set<nat> {
    set v: nat | v < |s.index| && White(s, v)
  }

  class Pass {
    const F: array2<Word>
    const INDEX: array<nat>
    const VERTICES: array<nat>
    const R: Adjacency
    const infinity: nat
    var top: nat

    ghost predicate Valid()
      reads this, F, INDEX, VERTICES
    {
      && INDEX != VERTICES && F.Length0 == |R|
      && INDEX.Length == |R| + 1 && VERTICES.Length == |R| + 1
      && infinity == Infinity(|R|) && top <= |R|
    }

    ghost function Snapshot(): State
      requires Valid()
      reads this, F, INDEX, VERTICES
    {
      State(Rows(F), INDEX[..|R|], VERTICES[1..top + 1])
    }

    constructor (F: array2<Word>, relation: Adjacency)
      requires WellFormed(relation) && F.Length0 == |relation|
      ensures Valid() && this.F == F && R == relation && fresh(INDEX) && fresh(VERTICES)
      ensures Snapshot() == State(Rows(F), seq(|relation|, _ => 0), [])
    {
      this.F := F;
      infinity := |relation| + 2;
      INDEX := new nat[|relation| + 1](_ => 0);
      VERTICES := new nat[|relation| + 1](_ => 0);
      top := 0;
      R := relation;
    }

    /** Opening the call: i goes on the stack and INDEX[i] is its height. */
    method Open(i: nat, ghost F0: seq<set<nat>>, ghost active: set<nat>) returns (height: nat)
      requires Valid() && i < |R| && Inv(R, F0, Snapshot(), active) && White(Snapshot(), i)
      modifies `top, INDEX, VERTICES
      ensures Valid() && Snapshot() == Push(old(Snapshot()), i) && height == top == old(top) + 1
    {
      PushShape(R, F0, Snapshot(), i);
      assert |Push(Snapshot(), i).stack| <= |R|;
      top := top + 1;
      VERTICES[top] := i;
      height := top;
      INDEX[i] := height;
    }

    /** Lowering INDEX[i] to INDEX[j] and or-ing the row of j into the row of i. */
    method Follow(i: nat, j: nat)
      requires Valid() && i < |R| && j < |R|
      modifies F, INDEX
      ensures Valid() && Snapshot() == Absorb(old(Snapshot()), i, j)
    {
      if INDEX[i] > INDEX[j] {
        INDEX[i] := INDEX[j];
      }
      OrRow(F, i, F, j);
    }

    /** One round of the popping loop: the top vertex is finished with the row of i. */
    method PopTop(i: nat) returns (j: nat)
      requires Valid() && 0 < top && i < |R| && Snapshot().stack[top - 1] < |R|
      modifies `top, F, INDEX
      ensures Valid() && top == old(top) - 1 && j == old(VERTICES[top]) && Snapshot() == Popped(old(Snapshot()), i)
    {
      j := VERTICES[top];
      assert Snapshot().stack[top - 1] == j;
      top := top - 1;
      INDEX[j] := infinity;
      if i != j {
        CopyRow(F, j, i);
      }
    }

    /** Popping the component of i, the root, and giving every member the row of i. */
    method CloseRoot(i: nat, height: nat)
      requires Valid() && 0 < height <= top && i < |R| && Snapshot().stack[height - 1] == i
      requires forall p :: 0 <= p < top ==> Snapshot().stack[p] < |R|
      requires forall p :: height <= p < top ==> Snapshot().stack[p] != i
      modifies `top, F, INDEX
      ensures Valid() && Snapshot() == Pop(old(Snapshot()), height - 1, i)
    {
      hide Pop, Popped;
      ghost var s := Snapshot();
      PopNone(s, i);
      while true
        invariant Valid() && height <= top <= |s.stack| && VERTICES[1..|s.stack| + 1] == s.stack
        invariant Snapshot() == Pop(s, top, i)
        decreases top
      {
        PopOne(s, top, i);
        var j := PopTop(i);
        assert j == s.stack[top];
        if i == j {
          break;
        }
      }
    }

    method Traverse(i: nat, ghost F0: seq<set<nat>>, ghost active: set<nat>)
      requires Valid() && i < |R| && Inv(R, F0, Snapshot(), active) && White(Snapshot(), i)
      modifies `top, F, INDEX, VERTICES
      ensures Valid() && Traversed(R, F0, old(Snapshot()), Snapshot(), active, i)
      decreases Whites(Snapshot()), 0
    {
      hide Inv, Visiting, Traversed, White;
      ghost var s0 := Snapshot();
      OpenVisits(R, F0, s0, active, i);
      var height := Open(i, F0, active);

      var rp := 0;
      while rp < |R[i]|
        invariant rp <= |R[i]| && Valid() && Visiting(R, F0, s0, Snapshot(), active, i, rp)
      {
        NextEdge(R, F0, s0, Snapshot(), active, i, rp);
        TraverseEdge(i, rp, F0, s0, active);
        rp := rp + 1;
      }
      Leave(i, height, F0, s0, active);
    }

    /** One edge of i: its end is visited unless it was before, and what it has is absorbed. */
    method TraverseEdge(i: nat, rp: nat, ghost F0: seq<set<nat>>, ghost s0: State, ghost active: set<nat>)
      requires Valid() && i < |R| && rp < |R[i]| && Inv(R, F0, s0, active) && |s0.index| == |R| && White(s0, i)
      requires Visiting(R, F0, s0, Snapshot(), active, i, rp)
      modifies `top, F, INDEX, VERTICES
      ensures Valid() && Visiting(R, F0, s0, Snapshot(), active, i, rp + 1)
      decreases Whites(Snapshot()), 1
    {
      hide Inv, Visiting, Traversed, White;
      var j := R[i][rp];
      ghost var s := Snapshot();
      NextEdge(R, F0, s0, s, active, i, rp);
      if INDEX[j] == 0 {
        IsWhite(s, j);
        Traverse(j, F0, active + {i});
      } else {
        IsNotWhite(s, j);
      }
      VisitEdge(R, F0, s0, s, Snapshot(), active, i, rp);
      Follow(i, j);
    }

    /** The end of traverse: the root of a component closes it, another vertex stays on the stack. */
    method Leave(i: nat, height: nat, ghost F0: seq<set<nat>>, ghost s0: State, ghost active: set<nat>)
      requires Valid() && i < |R| && Inv(R, F0, s0, active) && White(s0, i)
      requires Visiting(R, F0, s0, Snapshot(), active, i, |R[i]|) && height == |s0.stack| + 1
      modifies `top, F, INDEX
      ensures Valid() && Traversed(R, F0, s0, Snapshot(), active, i)
    {
      ghost var s := Snapshot();
      if INDEX[i] == height {
        CloseRoot(i, height);
        CloseComponent(R, F0, s0, s, active, i);
      } else {
        LeaveOnStack(R, F0, s0, s, active, i);
      }
    }

    /** The loop of digraph: a vertex is finished, or it has no edges and was never visited. */
    method Run(ghost F0: seq<set<nat>>)
      requires Valid() && WellFormed(R) && F0 == Rows(F)
      requires Snapshot() == State(F0, seq(|R|, _ => 0), [])
      modifies `top, F, INDEX, VERTICES
      ensures Valid() && Snapshot().stack == [] && |F0| == |R|
      ensures forall v: nat :: v < |R| ==> INDEX[v] == infinity || (INDEX[v] == 0 && R[v] == [])
      ensures forall v: nat :: v < |R| ==> Final(R, F0, Snapshot(), v)
    {
      hide Flows, Followed, Reach, EdgeRel, Pending, Explored;
      StartInv(R, F0);
      var i := 0;
      while i < |R|
        invariant i <= |R| && Valid() && Inv(R, F0, Snapshot(), {}) && Snapshot().stack == []
        invariant forall v: nat :: v < i && White(Snapshot(), v) ==> R[v] == []
      {
        if INDEX[i] == 0 && R[i] != [] {
          Traverse(i, F0, {});
        }
        i := i + 1;
      }
      AllVisited(R, F0, Snapshot());
      assert forall v: nat :: v < |R| ==> Snapshot().index[v] == INDEX[v];
      AllFinal(R, F0, Snapshot());
    }
  }

  /** traverse(i) opened: none of its edges followed yet. */
  lemma OpenVisits(R: Adjacency, F0: seq<set<nat>>, s0: State, active: set<nat>, i: nat)
    requires i < |R| && Inv(R, F0, s0, active) && |s0.index| == |R| && White(s0, i)
    ensures |Push(s0, i).stack| == |s0.stack| + 1 && Visiting(R, F0, s0, Push(s0, i), active, i, 0)
  {
    PushShape(R, F0, s0, i);
    PushKeepsInv(R, F0, s0, active, i);
  }

  lemma NextEdge(R: Adjacency, F0: seq<set<nat>>, s0: State, s: State, active: set<nat>, i: nat, k: nat)
    requires Visiting(R, F0, s0, s, active, i, k) && i < |R| && k < |R[i]| && |s0.index| == |R| && White(s0, i)
    ensures R[i][k] < |R| == |s.index| && Inv(R, F0, s, active + {i}) && Whites(s) < Whites(s0)
  {
    assert i in Whites(s0) && i !in Whites(s);
  }

  lemma IsWhite(s: State, v: nat)
    requires v < |s.index| && s.index[v] == 0
    ensures White(s, v)
  {}

  lemma IsNotWhite(s: State, v: nat)
    requires v < |s.index| && s.index[v] != 0
    ensures !White(s, v)
  {}

  lemma StartInv(R: Adjacency, F0: seq<set<nat>>)
    requires WellFormed(R) && |F0| == |R|
    ensures Inv(R, F0, State(F0, seq(|R|, _ => 0), []), {})
  {}

  /** With an empty stack every vertex is finished or was never visited. */
  lemma AllVisited(R: Adjacency, F0: seq<set<nat>>, s: State)
    requires Inv(R, F0, s, {}) && s.stack == [] && forall v: nat :: v < |R| && White(s, v) ==> R[v] == []
    ensures |s.index| == |R|
    ensures forall v: nat :: v < |R| ==> s.index[v] == Infinity(|R|) || (s.index[v] == 0 && R[v] == [])
  {
    forall v: nat | v < |R|
      ensures s.index[v] == Infinity(|R|) || (s.index[v] == 0 && R[v] == [])
    {
      assert v !in s.stack;
      assert White(s, v) || Black(s, v);
    }
  }

  /** Vertices never visited have no edges; every visited one is finished and its row is final. */
  lemma AllFinal(R: Adjacency, F0: seq<set<nat>>, s: State)
    requires Inv(R, F0, s, {}) && s.stack == []
    requires forall v: nat :: v < |R| && White(s, v) ==> R[v] == []
    ensures forall v: nat :: v < |R| ==> Final(R, F0, s, v)
  {
    forall v: nat | v < |R| && White(s, v)
      ensures Final(R, F0, s, v)
    {
      ReachRefl(EdgeRel(R), v);
      forall w: nat | Reach(EdgeRel(R), v, w)
        ensures w == v
      {
        ClosedKeepsReach(EdgeRel(R), iset{v}, v, w);
      }
    }
  }

  /** digraph: afterwards row v is the union of the initial rows of everything v reaches. */
  method Digraph(F: array2<Word>, relation: Adjacency)
    requires WellFormed(relation) && F.Length0 == |relation|
    modifies F
    ensures forall v: nat, t: nat :: v < |relation| ==>
              (t in Rows(F)[v] <==> Flows(relation, old(Rows(F)), v, t))
  {
    ghost var F0 := Rows(F);
    var pass := new Pass(F, relation);
    pass.Run(F0);
    forall v: nat, t: nat | v < |relation|
      ensures t in Rows(F)[v] <==> Flows(relation, F0, v, t)
    {
      assert Final(relation, F0, pass.Snapshot(), v);
    }
  }

  /** The members of one strongly connected component end with equal rows. */
  lemma ComponentSharesRow(R: Adjacency, F0: seq<set<nat>>, v: nat, w: nat)
    requires Reach(EdgeRel(R), v, w) && Reach(EdgeRel(R), w, v)
    ensures forall t: nat :: Flows(R, F0, v, t) <==> Flows(R, F0, w, t)
  {
    forall x: nat
      ensures Reach(EdgeRel(R), v, x) <==> Reach(EdgeRel(R), w, x)
    {
      if Reach(EdgeRel(R), v, x) {
        ReachTrans(EdgeRel(R), w, v, x);
      }
      if Reach(EdgeRel(R), w, x) {
        ReachTrans(EdgeRel(R), v, w, x);
      }
    }
  }

  lemma PopNone(s: State, i: nat)
    requires i < |s.rows|
    ensures Pop(s, |s.stack|, i) == s
  {}

  lemma PopOne(s: State, q: nat, i: nat)
    requires 0 < q <= |s.stack| && i < |s.rows| && |s.rows| == |s.index| && s.stack[q - 1] < |s.rows|
    ensures var t := Pop(s, q, i);
            && |t.stack| == q && t.stack[q - 1] == s.stack[q - 1] && |t.rows| == |t.index| == |s.rows|
            && Pop(s, q - 1, i) == Popped(t, i)
  {
    assert s.stack[q - 1..] == [s.stack[q - 1]] + s.stack[q..];
    assert s.stack[..q][..q - 1] == s.stack[..q - 1];
  }

  /** Rows that hold their initial elements and absorb the rows they point to. */
  ghost predicate Absorbs(R: Adjacency, F0: seq<set<nat>>, F: seq<set<nat>>) {
    && |F| == |F0| == |R| && (forall v :: 0 <= v < |R| ==> F0[v] <= F[v])
    && forall v, j :: 0 <= v < |R| && j in R[v] && j < |R| ==> F[j] <= F[v]
  }

  /** The rows the pass computes are the least ones that absorb the rows they point to. */
  lemma FlowsIsLeast(R: Adjacency, F0: seq<set<nat>>, F: seq<set<nat>>, v: nat, t: nat)
    requires Absorbs(R, F0, F) && v < |R| && Flows(R, F0, v, t)
    ensures t in F[v]
  {
    var w: nat :| w < |F0| && Reach(EdgeRel(R), v, w) && t in F0[w];
    var p :| Joins(EdgeRel(R), p, v, w);
    AbsorbedAlong(R, F0, F, p);
  }

  lemma {:induction false} AbsorbedAlong(R: Adjacency, F0: seq<set<nat>>, F: seq<set<nat>>, p: seq<nat>)
    requires Absorbs(R, F0, F) && IsPath(EdgeRel(R), p) && p[|p| - 1] < |R| && p[0] < |R|
    ensures F[p[|p| - 1]] <= F[p[0]]
    decreases |p|
  {
    if |p| > 1 {
      var n := |p| - 1;
      assert EdgeRel(R)(p[n - 1], p[n]);
      assert IsPath(EdgeRel(R), p[..n]);
      AbsorbedAlong(R, F0, F, p[..n]);
    }
  }
}

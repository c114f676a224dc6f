/** Paths and reachability over a binary relation on the natural numbers, and a counting lemma. */
module Reachability {

  type Rel = (nat, nat) -> bool

  /** Consecutive vertices of p are related; p is not empty. */
  ghost predicate IsPath(R: Rel, p: seq<nat>) {
    |p| > 0 && forall k :: 0 <= k < |p| - 1 ==> R(p[k], p[k + 1])
  }

  ghost predicate Joins(R: Rel, p: seq<nat>, a: nat, b: nat) {
    IsPath(R, p) && p[0] == a && p[|p| - 1] == b
  }

  /** Some path, possibly of no edges, leads from a to b. */
  ghost predicate Reach(R: Rel, a: nat, b: nat) {
    exists p :: Joins(R, p, a, b)
  }

  /** Some path of at least one edge leads from a to b. */
  ghost predicate ReachPlus(R: Rel, a: nat, b: nat) {
    exists c: nat :: R(a, c) && Reach(R, c, b)
  }

  lemma ReachRefl(R: Rel, a: nat)
    ensures Reach(R, a, a)
  {
    assert Joins(R, [a], a, a);
  }

  lemma ReachTrans(R: Rel, a: nat, b: nat, c: nat)
    requires Reach(R, a, b) && Reach(R, b, c)
    ensures Reach(R, a, c)
  {
    var p :| Joins(R, p, a, b);
    var q :| Joins(R, q, b, c);
    assert Joins(R, p + q[1..], a, c);
  }

  lemma ReachEdge(R: Rel, a: nat, b: nat)
    requires R(a, b)
    ensures Reach(R, a, b)
  {
    assert Joins(R, [a, b], a, b);
  }

  lemma ReachSnoc(R: Rel, a: nat, b: nat, c: nat)
    requires Reach(R, a, b) && R(b, c)
    ensures Reach(R, a, c)
  {
    ReachEdge(R, b, c);
    ReachTrans(R, a, b, c);
  }

  lemma ReachPlusTrans(R: Rel, a: nat, b: nat, c: nat)
    requires ReachPlus(R, a, b) && ReachPlus(R, b, c)
    ensures ReachPlus(R, a, c)
  {
    var d: nat :| R(a, d) && Reach(R, d, b);
    var e: nat :| R(b, e) && Reach(R, e, c);
    ReachSnoc(R, d, b, e);
    ReachTrans(R, d, e, c);
  }

  /** Reachability is an empty path or a path with at least one edge. */
  lemma ReachIsReflexivePlus(R: Rel, a: nat, b: nat)
    ensures Reach(R, a, b) <==> a == b || ReachPlus(R, a, b)
  {
    if Reach(R, a, b) && a != b {
      var p :| Joins(R, p, a, b);
      assert Joins(R, p[1..], p[1], b);
      assert R(a, p[1]);
    }
    if ReachPlus(R, a, b) {
      var c: nat :| R(a, c) && Reach(R, c, b);
      ReachEdge(R, a, c);
      ReachTrans(R, a, c, b);
    }
    ReachRefl(R, a);
  }

  /** Relations with the same edges reach the same vertices. */
  lemma ReachCongruence(R: Rel, S: Rel, a: nat, b: nat)
    requires forall x: nat, y: nat :: R(x, y) <==> S(x, y)
    ensures Reach(R, a, b) <==> Reach(S, a, b)
  {
    if Reach(R, a, b) {
      var p :| Joins(R, p, a, b);
      assert Joins(S, p, a, b);
    }
    if Reach(S, a, b) {
      var p :| Joins(S, p, a, b);
      assert Joins(R, p, a, b);
    }
  }

  ghost predicate ClosedUnder(R: Rel, S: iset<nat>) {
    forall a: nat, b: nat :: a in S && R(a, b) ==> b in S
  }

  /** A set closed under the relation keeps every path that starts in it. */
  lemma ClosedKeepsReach(R: Rel, S: iset<nat>, a: nat, b: nat)
    requires ClosedUnder(R, S) && a in S && Reach(R, a, b)
    ensures b in S
  {
    var p :| Joins(R, p, a, b);
    ClosedKeepsPath(R, S, p, |p| - 1);
  }

  lemma {:induction false} ClosedKeepsPath(R: Rel, S: iset<nat>, p: seq<nat>, k: nat)
    requires ClosedUnder(R, S) && IsPath(R, p) && p[0] in S && k < |p|
    ensures p[k] in S
  {
    if k > 0 {
      ClosedKeepsPath(R, S, p, k - 1);
      assert R(p[k - 1], p[k]);
    }
  }

  /** Distinct numbers below n number at most n. */
  lemma {:induction false} Pigeonhole(s: seq<nat>, n: nat)
    requires forall p :: 0 <= p < |s| ==> s[p] < n
    requires forall p, q :: 0 <= p < q < |s| ==> s[p] != s[q]
    ensures |s| <= n
  {
    if |s| > 0 {
      assert s[0] < n;
      if k :| 0 <= k < |s| && s[k] == n - 1 {
        Pigeonhole(s[..k] + s[k + 1..], n - 1);
      } else {
        Pigeonhole(s, n - 1);
      }
    }
  }
}

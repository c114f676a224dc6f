/** warshall.c: transitive closure of a packed bit matrix, in place. */
module Warshall {
  import opened Reachability
  import opened BitRows

  /** The relation whose row a is the set rows[a]. */
  ghost function RowRel(rows: seq<set<nat>>): Rel {
    (a: nat, b: nat) => a < |rows| && b in rows[a]
  }

  /** b is reached from a by a nonempty path whose inner vertices are all below k. */
  ghost predicate Via(R: Rel, k: nat, a: nat, b: nat) {
    if k == 0 then R(a, b) else Via(R, k - 1, a, b) || (Via(R, k - 1, a, k - 1) && Via(R, k - 1, k - 1, b))
  }

  lemma {:induction false} ViaIsPath(R: Rel, k: nat, a: nat, b: nat)
    requires Via(R, k, a, b)
    ensures ReachPlus(R, a, b)
  {
    if k == 0 {
      ReachRefl(R, b);
    } else if Via(R, k - 1, a, b) {
      ViaIsPath(R, k - 1, a, b);
    } else {
      ViaIsPath(R, k - 1, a, k - 1);
      ViaIsPath(R, k - 1, k - 1, b);
      ReachPlusTrans(R, a, k - 1, b);
    }
  }

  lemma {:induction false} ViaTransitive(R: Rel, k: nat, a: nat, c: nat, b: nat)
    requires c < k && Via(R, k, a, c) && Via(R, k, c, b)
    ensures Via(R, k, a, b)
  {
    if c < k - 1 {
      if Via(R, k - 1, a, c) && Via(R, k - 1, c, b) {
        ViaTransitive(R, k - 1, a, c, b);
      }
      if Via(R, k - 1, k - 1, c) && Via(R, k - 1, c, b) {
        ViaTransitive(R, k - 1, k - 1, c, b);
      }
      if Via(R, k - 1, a, c) && Via(R, k - 1, c, k - 1) {
        ViaTransitive(R, k - 1, a, c, k - 1);
      }
    }
  }

  lemma {:induction false} ViaMonotone(R: Rel, k: nat, a: nat, b: nat)
    requires R(a, b)
    ensures Via(R, k, a, b)
  {
    if k > 0 {
      ViaMonotone(R, k - 1, a, b);
    }
  }

  lemma PathIsVia(R: Rel, n: nat, a: nat, b: nat)
    requires forall x: nat, y: nat :: R(x, y) ==> x < n
    requires ReachPlus(R, a, b)
    ensures Via(R, n, a, b)
  {
    var c: nat :| R(a, c) && Reach(R, c, b);
    ViaMonotone(R, n, a, c);
    var S := iset x: nat | Via(R, n, a, x);
    forall x: nat, y: nat | x in S && R(x, y)
      ensures y in S
    {
      ViaMonotone(R, n, x, y);
      ViaTransitive(R, n, a, x, y);
    }
    ClosedKeepsReach(R, S, c, b);
  }

  lemma ViaExact(R: Rel, n: nat, a: nat, b: nat)
    requires forall x: nat, y: nat :: R(x, y) ==> x < n
    ensures Via(R, n, a, b) <==> ReachPlus(R, a, b)
  {
    if Via(R, n, a, b) {
      ViaIsPath(R, n, a, b);
    }
    if ReachPlus(R, a, b) {
      PathIsVia(R, n, a, b);
    }
  }

  /** Afterwards row a holds b exactly when a nonempty path led from a to b in the input. */
  method TransitiveClosure(M: array2<Word>, n: nat)
    requires M.Length0 == n && M.Length1 == WordSize(n)
    modifies M
    ensures forall a: nat, b: nat :: a < n ==> (b in Rows(M)[a] <==> ReachPlus(RowRel(old(Rows(M))), a, b))
  {
    ghost var R := RowRel(Rows(M));
    var cword, mask, rowi := 0, 0, 0;
    while rowi < n
      invariant rowi <= n && mask < 32 && 32 * cword + mask == rowi
      invariant forall a: nat, b: nat :: a < n ==> (b in Rows(M)[a] <==> Via(R, rowi, a, b))
    {
      var rowj := 0;
      while rowj < n
        invariant rowj <= n
        invariant forall a: nat, b: nat :: a < rowj ==> (b in Rows(M)[a] <==> Via(R, rowi + 1, a, b))
        invariant forall a: nat, b: nat :: rowj <= a < n ==> (b in Rows(M)[a] <==> Via(R, rowi, a, b))
      {
        WordBit(M, rowj, cword, mask);
        if mask in M[rowj, cword] {
          OrRow(M, rowj, M, rowi);
        }
        rowj := rowj + 1;
      }
      mask := mask + 1;
      if mask == 32 {
        mask := 0;
        cword := cword + 1;
      }
      rowi := rowi + 1;
    }
    forall a: nat, b: nat | a < n
      ensures b in Rows(M)[a] <==> ReachPlus(R, a, b)
    {
      ViaExact(R, n, a, b);
    }
  }

  ghost function WithDiagonal(rows: seq<set<nat>>, k: nat): seq<set<nat>> {
    seq(|rows|, a requires 0 <= a < |rows| => if a < k then rows[a] + {a} else rows[a])
  }

  /** The walk down the diagonal with a row, a word and a mask cursor. */
  method AddDiagonal(M: array2<Word>, n: nat)
    requires M.Length0 == n && M.Length1 == WordSize(n)
    modifies M
    ensures Rows(M) == WithDiagonal(old(Rows(M)), n)
  {
    ghost var T := Rows(M);
    var row, word, mask := 0, 0, 0;
    while row < n
      invariant row <= n && mask < 32 && 32 * word + mask == row
      invariant Rows(M) == WithDiagonal(T, row)
    {
      SetWordBit(M, row, word, mask);
      mask := mask + 1;
      if mask == 32 {
        mask := 0;
        word := word + 1;
      }
      row := row + 1;
    }
  }

  /** The reflexive version adds exactly the diagonal. */
  method ReflexiveTransitiveClosure(M: array2<Word>, n: nat)
    requires M.Length0 == n && M.Length1 == WordSize(n)
    modifies M
    ensures forall a: nat, b: nat :: a < n ==> (b in Rows(M)[a] <==> Reach(RowRel(old(Rows(M))), a, b))
  {
    ghost var R := RowRel(Rows(M));
    TransitiveClosure(M, n);
    ghost var T := Rows(M);
    AddDiagonal(M, n);
    hide Reach, ReachPlus, RowRel;
    forall a: nat, b: nat | a < n
      ensures b in Rows(M)[a] <==> Reach(R, a, b)
    {
      assert Rows(M)[a] == T[a] + {a};
      ReachIsReflexivePlus(R, a, b);
    }
  }
}

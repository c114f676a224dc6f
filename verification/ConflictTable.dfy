/** output.c, find_conflict_base and the conflict part of token_actions: lists of alternatives
    closed by -1, stored once per content, overlapping where they can. */
module ConflictTable {

  /** What a stored list looks like: a leading -1 when the first alternative is a reduction. */
  ghost function Encoded(values: seq<int>, reduceFirst: bool): seq<int> {
    (if reduceFirst then [-1] else []) + values + [-1]
  }

  /** Reading the table as the generated parser does: skip a leading -1, stop at the next one. */
  ghost function ReadFrom(table: seq<int>, c: nat): seq<int>
    decreases |table| - c
  {
    if c >= |table| || table[c] == -1 then [] else [table[c]] + ReadFrom(table, c + 1)
  }

  ghost function Decode(table: seq<int>, base: nat): seq<int> {
    if base < |table| && table[base] == -1 then ReadFrom(table, base + 1) else ReadFrom(table, base)
  }

  /** L stands in the table from place j on. */
  ghost predicate StandsAt(table: seq<int>, j: nat, L: seq<int>) {
    j + |L| <= |table| && table[j..j + |L|] == L
  }

  ghost predicate NonNegative(values: seq<int>) {
    forall k :: 0 <= k < |values| ==> values[k] >= 0
  }

  lemma {:induction false} ReadStored(table: seq<int>, c: nat, values: seq<int>)
    requires NonNegative(values) && StandsAt(table, c, values + [-1])
    ensures ReadFrom(table, c) == values
    decreases |values|
  {
    var L := values + [-1];
    assert table[c] == table[c..c + |L|][0] == L[0];
    if values != [] {
      assert table[c + 1..c + |L|] == table[c..c + |L|][1..];
      assert values[1..] + [-1] == L[1..];
      ReadStored(table, c + 1, values[1..]);
    }
  }

  /** A stored list decodes to its values, wherever it stands. */
  lemma DecodeStored(table: seq<int>, j: nat, values: seq<int>, reduceFirst: bool)
    requires NonNegative(values) && (values == [] ==> reduceFirst) && StandsAt(table, j, Encoded(values, reduceFirst))
    ensures Decode(table, j) == values
    ensures table[j] == -1 <==> reduceFirst
  {
    var L := Encoded(values, reduceFirst);
    assert table[j] == table[j..j + |L|][0];
    if reduceFirst {
      assert table[j + 1..j + |L|] == table[j..j + |L|][1..];
      assert L[1..] == values + [-1];
      ReadStored(table, j + 1, values);
    } else {
      assert L == values + [-1];
      ReadStored(table, j, values);
    }
  }

  lemma StandsStays(table: seq<int>, table': seq<int>, n: nat, j: nat, L: seq<int>)
    requires n <= |table| && n <= |table'| && table'[..n] == table[..n] && j + |L| <= n && StandsAt(table, j, L)
    ensures StandsAt(table', j, L)
  {
    assert table[j..j + |L|] == table[..n][j..j + |L|];
    assert table'[j..j + |L|] == table'[..n][j..j + |L|];
  }

  /** A list that recurs at an earlier, overlapping place i can only overlap the original in one
      cell: the terminator of the copy is the leading mark of the original. */
  lemma OverlapIsOneCell(table: seq<int>, i: nat, base: nat, L: seq<int>, values: seq<int>, reduceFirst: bool)
    requires NonNegative(values) && L == Encoded(values, reduceFirst)
    requires i < base && StandsAt(table, base, L) && StandsAt(table, i, L)
    ensures i + |L| <= base + (if reduceFirst then 1 else 0)
  {
    var n := |L|;
    if i + n - 1 >= base {
      var k := i + n - 1 - base;
      assert table[i..i + n][n - 1] == -1;
      assert table[base..base + n][k] == L[k] == -1;
      OnlyLeadingMark(values, reduceFirst, k);
    }
  }

  lemma OnlyLeadingMark(values: seq<int>, reduceFirst: bool, k: nat)
    requires NonNegative(values) && k < |Encoded(values, reduceFirst)| - 1 && Encoded(values, reduceFirst)[k] == -1
    ensures k == 0 && reduceFirst
  {}

  lemma NotStanding(table: seq<int>, i: nat, L: seq<int>, j: nat)
    requires j < |L| && i + j < |table| && table[i + j] != L[j]
    ensures !StandsAt(table, i, L)
  {
    if i + |L| <= |table| {
      assert table[i..i + |L|][j] != L[j];
    }
  }

  /** The open list of token_actions and the closed ones before it. */
  class Conflicts {
    const conflicts: array<int>
    var nconflicts: nat
    var cbase: nat
    ghost var closed: nat
    ghost var values: seq<int>
    ghost var reduceFirst: bool

    /** No list is open: all that is stored ends with a terminator. */
    ghost predicate Idle()
      reads this, conflicts
    {
      && cbase == nconflicts == closed <= conflicts.Length
      && (closed > 0 ==> conflicts[closed - 1] == -1)
      && values == [] && !reduceFirst
    }

    /** A list is open from cbase on; a leading reduction shares the terminator before it. */
    ghost predicate Open()
      reads this, conflicts
    {
      && cbase <= nconflicts <= conflicts.Length && closed <= nconflicts && NonNegative(values)
      && (closed > 0 ==> conflicts[closed - 1] == -1)
      && cbase == (if reduceFirst && closed > 0 then closed - 1 else closed)
      && conflicts[cbase..nconflicts] == (if reduceFirst then [-1] else []) + values
      && (reduceFirst ==> values != [])
    }

    constructor (capacity: nat)
      ensures Idle() && Open() && fresh(conflicts) && conflicts.Length == capacity && nconflicts == 0
    {
      conflicts := new int[capacity](_ => 0);
      nconflicts, cbase := 0, 0;
      closed, values, reduceFirst := 0, [], false;
    }

    /** One more place taken. */
    method Push(x: int)
      requires cbase <= nconflicts < conflicts.Length && closed <= nconflicts
      modifies `nconflicts, conflicts
      ensures nconflicts == old(nconflicts) + 1
      ensures conflicts[cbase..nconflicts] == old(conflicts[cbase..nconflicts]) + [x]
      ensures conflicts[..closed] == old(conflicts[..closed])
    {
      conflicts[nconflicts] := x;
      nconflicts := nconflicts + 1;
    }

    /** A suppressed shift joins the open list. */
    method AddShift(number: nat)
      requires Open() && nconflicts < conflicts.Length
      modifies `nconflicts, `values, conflicts
      ensures Open() && values == old(values) + [number] && nconflicts == old(nconflicts) + 1
      ensures conflicts[..closed] == old(conflicts[..closed])
    {
      LastKept();
      Push(number);
      LastKept();
      values := values + [number];
    }

    /** The last closed place is read off the closed part. */
    lemma LastKept()
      requires 0 <= closed <= conflicts.Length
      ensures closed > 0 ==> conflicts[closed - 1] == conflicts[..closed][closed - 1]
    {}

    /** A leading reduction: the terminator before the list serves as its mark, or one is set. */
    method Mark()
      requires Open() && values == [] && nconflicts < conflicts.Length
      modifies this, conflicts
      ensures cbase <= nconflicts <= conflicts.Length && closed == old(closed) <= nconflicts && values == []
      ensures conflicts[cbase..nconflicts] == [-1] && cbase == (if closed > 0 then closed - 1 else closed) &&
          !reduceFirst
      ensures nconflicts == old(nconflicts) + (if old(cbase) == 0 then 1 else 0)
      ensures conflicts[..closed] == old(conflicts[..closed])
    {
      if cbase > 0 {
        cbase := cbase - 1;
      } else {
        Push(-1);
      }
    }

    /** A suppressed reduction joins it; as the first entry it first gets a -1 in front. */
    method AddReduce(number: nat)
      requires Open() && nconflicts + 1 < conflicts.Length
      modifies this, conflicts
      ensures Open() && values == old(values) + [number] && closed == old(closed)
      ensures nconflicts == old(nconflicts) + (if old(values) == [] && old(cbase) == 0 then 2 else 1)
      ensures reduceFirst == if old(values) == [] then true else old(reduceFirst)
      ensures conflicts[..closed] == old(conflicts[..closed])
    {
      LastKept();
      if cbase == nconflicts {
        Mark();
        reduceFirst := true;
      }
      Push(number);
      LastKept();
      values := values + [number];
    }

    /** find_conflict_base: the first earlier place where the open list already stands. */
    method FindConflictBase() returns (i: nat)
      requires cbase <= nconflicts <= conflicts.Length
      ensures i <= cbase && StandsAt(conflicts[..nconflicts], i, conflicts[cbase..nconflicts])
      ensures forall k :: 0 <= k < i ==> !StandsAt(conflicts[..nconflicts], k, conflicts[cbase..nconflicts])
    {
      ghost var table := conflicts[..nconflicts];
      ghost var L := conflicts[cbase..nconflicts];
      i := 0;
      while i < cbase
        invariant i <= cbase
        invariant forall k :: 0 <= k < i ==> !StandsAt(table, k, L)
      {
        var j := 0;
        while j + cbase < nconflicts && conflicts[i + j] == conflicts[cbase + j]
          invariant j + cbase <= nconflicts && table[i..i + j] == L[..j]
        {
          assert table[i..i + j + 1] == table[i..i + j] + [table[i + j]];
          j := j + 1;
        }
        if j + cbase >= nconflicts {
          assert L[..j] == L;
          return;
        }
        assert table[i + j] != L[j];
        NotStanding(table, i, L, j);
        i := i + 1;
      }
      assert table[cbase..cbase + |L|] == L;
    }

    ghost predicate Terminated()
      reads this, conflicts
    {
      && cbase < nconflicts <= conflicts.Length && closed < nconflicts && NonNegative(values)
      && cbase == (if reduceFirst && closed > 0 then closed - 1 else closed)
      && conflicts[cbase..nconflicts] == Encoded(values, reduceFirst)
      && (closed > 0 ==> conflicts[closed - 1] == -1) && (reduceFirst ==> values != [])
    }

    method Terminate()
      requires Open() && nconflicts < conflicts.Length
      modifies `nconflicts, conflicts
      ensures Terminated() && nconflicts == old(nconflicts) + 1
      ensures conflicts[..closed] == old(conflicts[..closed])
    {
      LastKept();
      Push(-1);
      LastKept();
    }

    /** Keep the list, or drop it for the earlier copy at j. */
    method Settle(j: nat)
      requires Terminated() && j <= cbase
      requires j < cbase ==> StandsAt(conflicts[..nconflicts], j, conflicts[cbase..nconflicts])
      modifies this
      ensures Idle() && old(closed) <= closed <= old(nconflicts) && nconflicts == closed
      ensures old(values) != [] ==> StandsAt(conflicts[..closed], j, Encoded(old(values), old(reduceFirst)))
      ensures old(values) == [] ==> closed <= old(closed) + 1
    {
      ghost var table := conflicts[..nconflicts];
      ghost var base := cbase;
      ghost var L := Encoded(values, reduceFirst);
      assert table[base..base + |L|] == L && table[base..base + |L|][0] == L[0];
      if j == cbase {
        cbase := nconflicts;
        assert conflicts[nconflicts - 1] == table[base..base + |L|][|L| - 1];
      } else {
        if conflicts[cbase] == -1 {
          cbase := cbase + 1;
        }
        nconflicts := cbase;
        if values != [] {
          Truncated(table, conflicts[..cbase], j, base, L, values, reduceFirst);
        }
      }
      closed, values, reduceFirst := cbase, [], false;
    }

    /** The end of a token's list: terminate it, keep it or the earlier copy, and drop the rest. */
    method Close() returns (j: nat)
      requires Open() && nconflicts < conflicts.Length
      modifies this, conflicts
      ensures Idle() && old(closed) <= closed
      ensures conflicts[..old(closed)] == old(conflicts[..closed])
      ensures old(values) != [] ==> StandsAt(conflicts[..closed], j, Encoded(old(values), old(reduceFirst)))
      ensures closed <= old(nconflicts) + 1 && nconflicts == closed
      ensures old(values) == [] ==> closed <= old(closed) + 1
    {
      Terminate();
      j := FindConflictBase();
      Settle(j);
    }
  }

  /** Dropping a list that stands earlier keeps the earlier copy whole. */
  lemma Truncated(table: seq<int>, kept: seq<int>, j: nat, base: nat, L: seq<int>, values: seq<int>, reduceFirst: bool)
    requires NonNegative(values) && values != [] && L == Encoded(values, reduceFirst)
    requires j < base && StandsAt(table, base, L) && StandsAt(table, j, L)
    requires |kept| == (if table[base] == -1 then base + 1 else base) <= |table| && kept == table[..|kept|]
    ensures StandsAt(kept, j, L) && (table[base] == -1 <==> reduceFirst)
  {
    assert table[base..base + |L|][0] == L[0];
    OverlapIsOneCell(table, j, base, L, values, reduceFirst);
    StandsStays(table, kept, |kept|, j, L);
  }
}

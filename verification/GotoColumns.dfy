/** output.c, default_goto and save_column: one column of gotos per nonterminal, the most frequent
    target left to the default. */
module GotoColumns {
  import opened Pack

  /** How many of to[m..n) are s. */
  ghost function Occurs(to: seq<nat>, m: nat, n: nat, s: nat): nat
    requires n <= |to|
  {
    if n <= m then 0 else Occurs(to, m, n - 1, s) + (if to[n - 1] == s then 1 else 0)
  }

  lemma {:induction false} OccursSome(to: seq<nat>, m: nat, n: nat, i: nat)
    requires m <= i < n <= |to|
    ensures Occurs(to, m, n, to[i]) > 0
    decreases n
  {
    if i < n - 1 {
      OccursSome(to, m, n - 1, i);
    }
  }

  /** d is the first of the states met most often in to[m..n). */
  ghost predicate MostFrequent(to: seq<nat>, m: nat, n: nat, nstates: nat, d: nat)
    requires n <= |to|
  {
    && d < nstates && (forall s: nat :: s < nstates ==> Occurs(to, m, n, s) <= Occurs(to, m, n, d))
    && forall s: nat :: s < d ==> Occurs(to, m, n, s) < Occurs(to, m, n, d)
  }

  /** default_goto: the least of the most frequent targets, 0 for a symbol without gotos. */
  method DefaultGoto(nstates: nat, map_: seq<nat>, to: seq<nat>, symbol: nat) returns (defaultState: nat)
    requires symbol + 1 < |map_| && map_[symbol] <= map_[symbol + 1] <= |to| && nstates > 0
    requires forall i :: 0 <= i < |to| ==> to[i] < nstates
    ensures MostFrequent(to, map_[symbol], map_[symbol + 1], nstates, defaultState)
  {
    var m, n := map_[symbol], map_[symbol + 1];
    if m == n {
      return 0;
    }
    var stateCount := new nat[nstates](_ => 0);
    var i := m;
    while i < n
      invariant m <= i <= n && forall s: nat :: s < nstates ==> stateCount[s] == Occurs(to, m, i, s)
    {
      stateCount[to[i]] := stateCount[to[i]] + 1;
      i := i + 1;
    }
    var max := 0;
    defaultState := 0;
    i := 0;
    while i < nstates
      invariant i <= nstates && defaultState < nstates
      invariant max == (if i == 0 then 0 else Occurs(to, m, n, defaultState)) && (defaultState < i || defaultState == 0)
      invariant forall s: nat :: s < i ==> Occurs(to, m, n, s) <= max
      invariant forall s: nat :: s < defaultState ==> Occurs(to, m, n, s) < max
    {
      if stateCount[i] > max {
        max := stateCount[i];
        defaultState := i;
      }
      i := i + 1;
    }
  }

  /** The gotos m..n whose target is not the default. */
  ghost function ColumnFroms(from: seq<nat>, to: seq<nat>, m: nat, n: nat, d: nat): seq<nat>
    requires n <= |from| == |to|
  {
    if n <= m then [] else ColumnFroms(from, to, m, n - 1, d) + (if to[n - 1] != d then [from[n - 1]] else [])
  }

  ghost function ColumnTos(to: seq<nat>, m: nat, n: nat, d: nat): seq<int>
    requires n <= |to|
  {
    if n <= m then [] else ColumnTos(to, m, n - 1, d) + (if to[n - 1] != d then [to[n - 1]] else [])
  }

  lemma {:induction false} ColumnLengths(from: seq<nat>, to: seq<nat>, m: nat, n: nat, i: nat, d: nat)
    requires m <= i <= n <= |from| == |to|
    ensures |ColumnFroms(from, to, m, n, d)| == |ColumnTos(to, m, n, d)|
    ensures |ColumnTos(to, m, i, d)| <= |ColumnTos(to, m, n, d)|
    decreases n
  {
    if i < n {
      ColumnLengths(from, to, m, n - 1, i, d);
    } else if m < n {
      ColumnLengths(from, to, m, n - 1, n - 1, d);
    }
  }

  method CountColumn(to: seq<nat>, m: nat, n: nat, defaultState: nat) returns (count: nat)
    requires m <= n <= |to|
    ensures count == |ColumnTos(to, m, n, defaultState)|
  {
    count := 0;
    var i := m;
    while i < n
      invariant m <= i <= n && count == |ColumnTos(to, m, i, defaultState)|
    {
      if to[i] != defaultState {
        count := count + 1;
      }
      i := i + 1;
    }
  }

  method FillColumn(from: seq<nat>, to: seq<nat>, m: nat, n: nat, defaultState: nat, sp1: array<nat>, sp2: array<int>)
    requires m <= n <= |from| == |to| && sp1.Length == sp2.Length == |ColumnTos(to, m, n, defaultState)|
    modifies sp1, sp2
    ensures sp1[..] == ColumnFroms(from, to, m, n, defaultState) && sp2[..] == ColumnTos(to, m, n, defaultState)
  {
    var i, r := m, 0;
    while i < n
      invariant m <= i <= n && r == |ColumnTos(to, m, i, defaultState)| <= sp1.Length
      invariant sp1[..r] == ColumnFroms(from, to, m, i, defaultState) && sp2[..r] == ColumnTos(to, m, i, defaultState)
    {
      ColumnLengths(from, to, m, n, i + 1, defaultState);
      if to[i] != defaultState {
        sp1[r] := from[i];
        sp2[r] := to[i];
        assert sp1[..r + 1] == sp1[..r] + [from[i]] && sp2[..r + 1] == sp2[..r] + [to[i] as int];
        r := r + 1;
      }
      i := i + 1;
    }
    assert sp1[..] == sp1[..r] && sp2[..] == sp2[..r];
  }

  /** save_column: the vector of a nonterminal, empty when every goto is the default one. */
  method SaveColumn(from: seq<nat>, to: seq<nat>, m: nat, n: nat, defaultState: nat) returns (v: Vector)
    requires m <= n <= |from| == |to| && forall i, k :: m <= i < k < n ==> from[i] < from[k]
    ensures v.froms == ColumnFroms(from, to, m, n, defaultState) && v.tos == ColumnTos(to, m, n, defaultState)
    ensures v.froms == [] ==> v.width == 0
    ensures v.froms != [] ==> v.froms[0] + v.width == v.froms[|v.froms| - 1] + 1
  {
    var count := CountColumn(to, m, n, defaultState);
    ColumnLengths(from, to, m, n, n, defaultState);
    if count == 0 {
      return Vector([], [], 0);
    }
    var sp1, sp2 := new nat[count], new int[count];
    FillColumn(from, to, m, n, defaultState, sp1, sp2);
    ColumnAscends(from, to, m, n, defaultState);
    v := Vector(sp1[..], sp2[..], sp1[count - 1] - sp1[0] + 1);
  }

  ghost predicate Ascends(s: seq<nat>) {
    forall k, l :: 0 <= k < l < |s| ==> s[k] < s[l]
  }

  /** Keys of a column ascend, below the source of the next goto. */
  lemma {:induction false} ColumnAscends(from: seq<nat>, to: seq<nat>, m: nat, n: nat, d: nat)
    requires m <= n <= |from| == |to| && forall i, k :: m <= i < k < n ==> from[i] < from[k]
    ensures Ascends(ColumnFroms(from, to, m, n, d))
    ensures forall x :: x in ColumnFroms(from, to, m, n, d) ==> m < n && x <= from[n - 1]
  {
    if m < n {
      ColumnAscends(from, to, m, n - 1, d);
      var s := ColumnFroms(from, to, m, n - 1, d);
      assert m < n - 1 ==> from[n - 2] < from[n - 1];
      assert forall k :: 0 <= k < |s| ==> s[k] in s;
    }
  }

  ghost predicate ColumnHas(from: seq<nat>, to: seq<nat>, m: nat, n: nat, d: nat, k: nat, i: nat)
    requires n <= |from| == |to|
  {
    && m <= i < n && to[i] != d
    && k < |ColumnFroms(from, to, m, n, d)| && k < |ColumnTos(to, m, n, d)|
    && ColumnFroms(from, to, m, n, d)[k] == from[i] && ColumnTos(to, m, n, d)[k] == to[i]
  }

  lemma {:induction false} KeyHasGoto(from: seq<nat>, to: seq<nat>, m: nat, n: nat, d: nat, k: nat) returns (i: nat)
    requires m <= n <= |from| == |to| && k < |ColumnFroms(from, to, m, n, d)|
    ensures ColumnHas(from, to, m, n, d, k, i)
  {
    ColumnLengths(from, to, m, n - 1, n - 1, d);
    if k < |ColumnFroms(from, to, m, n - 1, d)| {
      i := KeyHasGoto(from, to, m, n - 1, d, k);
    } else {
      i := n - 1;
    }
  }

  lemma {:induction false} GotoHasKey(from: seq<nat>, to: seq<nat>, m: nat, n: nat, d: nat, i: nat) returns (k: nat)
    requires m <= i < n <= |from| == |to| && to[i] != d
    ensures ColumnHas(from, to, m, n, d, k, i)
  {
    ColumnLengths(from, to, m, n - 1, n - 1, d);
    if i < n - 1 {
      k := GotoHasKey(from, to, m, n - 1, d, i);
    } else {
      k := |ColumnFroms(from, to, m, n - 1, d)|;
    }
  }
}

/** output.c, sort_actions to pack_vector: sparse vectors overlaid in one table/check pair, and
    the lookup of the generated parser that reads them back. */
module Pack {

  /** One sparse row or column: keys (froms) and their entries (tos). */
  datatype Vector = Vector(froms: seq<nat>, tos: seq<int>, width: nat)

  ghost predicate VectorOK(v: Vector) {
    |v.froms| == |v.tos| && forall k, m :: 0 <= k < m < |v.froms| ==> v.froms[k] != v.froms[m]
  }

  predicate Same(v: Vector, w: Vector) {
    v.froms == w.froms && v.tos == w.tos
  }

  function Tally(v: Vector): nat {
    |v.froms|
  }

  /** v is packed before w: wider vectors first, then fuller ones. */
  predicate Sooner(v: Vector, w: Vector) {
    v.width > w.width || (v.width == w.width && Tally(v) > Tally(w))
  }

  predicate Level(v: Vector, w: Vector) {
    v.width == w.width && Tally(v) == Tally(w)
  }

  /** order lists the nonempty vectors among the first n, sorted, ties by number. */
  ghost predicate OrderOK(vs: seq<Vector>, n: nat, order: seq<nat>)
    requires n <= |vs|
  {
    && (forall p :: 0 <= p < |order| ==> order[p] < n && Tally(vs[order[p]]) > 0)
    && (forall i: nat :: i < n && Tally(vs[i]) > 0 ==> i in order)
    && (forall p, q :: 0 <= p < q < |order| ==> InOrder(vs, order[p], order[q]))
  }

  ghost predicate InOrder(vs: seq<Vector>, i: nat, k: nat) {
    i < |vs| && k < |vs| && (Sooner(vs[i], vs[k]) || (Level(vs[i], vs[k]) && i < k))
  }

  /** s with x put in at place j. */
  ghost function Inserted(s: seq<nat>, j: nat, x: nat): seq<nat>
    requires j <= |s|
  {
    seq(|s| + 1, p requires 0 <= p < |s| + 1 => if p < j then s[p] else if p == j then x else s[p - 1])
  }

  lemma OrderInsert(vs: seq<Vector>, n: nat, order: seq<nat>, j: nat)
    requires n < |vs| && OrderOK(vs, n, order) && Tally(vs[n]) > 0 && j <= |order|
    requires forall p :: 0 <= p < j ==> !Sooner(vs[n], vs[order[p]])
    requires forall p :: j <= p < |order| ==> Sooner(vs[n], vs[order[p]])
    ensures OrderOK(vs, n + 1, Inserted(order, j, n))
  {
    var order' := Inserted(order, j, n);
    forall i: nat | i < n + 1 && Tally(vs[i]) > 0
      ensures i in order'
    {
      if i == n {
        assert order'[j] == n;
      } else {
        var p: nat :| p < |order| && order[p] == i;
        assert order'[if p < j then p else p + 1] == i;
      }
    }
    forall p, q | 0 <= p < q < |order'|
      ensures InOrder(vs, order'[p], order'[q])
    {
      InsertedInOrder(vs, n, order, j, p, q);
    }
  }

  lemma InsertedInOrder(vs: seq<Vector>, n: nat, order: seq<nat>, j: nat, p: nat, q: nat)
    requires n < |vs| && OrderOK(vs, n, order) && j <= |order| && p < q <= |order|
    requires forall p :: 0 <= p < j ==> !Sooner(vs[n], vs[order[p]])
    requires forall p :: j <= p < |order| ==> Sooner(vs[n], vs[order[p]])
    ensures InOrder(vs, Inserted(order, j, n)[p], Inserted(order, j, n)[q])
  {
    var p' := if p < j then p else p - 1;
    var q' := if q < j then q else q - 1;
    assert p != j && q != j ==> InOrder(vs, order[p'], order[q']);
  }

  /** sort_actions: insertion of every nonempty vector behind the wider or fuller ones. */
  method SortActions(vs: seq<Vector>) returns (order: seq<nat>)
    ensures OrderOK(vs, |vs|, order)
  {
    var a := new nat[|vs|](_ => 0);
    var nentries := 0;
    var i := 0;
    ghost var sorted: seq<nat> := [];
    while i < |vs|
      invariant i <= |vs| && nentries <= i && sorted == a[..nentries] && OrderOK(vs, i, sorted)
    {
      if Tally(vs[i]) > 0 {
        var j := FindPlace(vs, i, a, nentries, sorted);
        OrderInsert(vs, i, sorted, j);
        InsertAt(a, nentries, j, i);
        sorted := Inserted(sorted, j, i);
        nentries := nentries + 1;
      }
      i := i + 1;
    }
    order := a[..nentries];
  }

  /** The order is by falling width, then by falling number of keys, then by rising number. */
  lemma OrderMeans(vs: seq<Vector>, order: seq<nat>, p: nat, q: nat)
    requires OrderOK(vs, |vs|, order) && p < q < |order|
    ensures order[p] < |vs| && order[q] < |vs|
    ensures var v, w := vs[order[p]], vs[order[q]];
            || v.width > w.width
            || (v.width == w.width && |v.froms| > |w.froms|)
            || (v.width == w.width && |v.froms| == |w.froms| && order[p] < order[q])
  {
    assert InOrder(vs, order[p], order[q]);
  }

  method InsertAt(a: array<nat>, n: nat, j: nat, i: nat)
    requires j <= n < a.Length
    modifies a
    ensures a[..n + 1] == Inserted(old(a[..n]), j, i)
  {
    ShiftRight(a, n, j);
    a[j] := i;
  }

  /** Past the place found there are only wider or fuller vectors before. */
  lemma NoneSooner(vs: seq<Vector>, n: nat, order: seq<nat>, i: nat, j: nat)
    requires i < |vs| && n <= |vs| && OrderOK(vs, n, order) && j < |order|
    requires vs[order[j]].width >= vs[i].width
    requires vs[order[j]].width == vs[i].width ==> Tally(vs[order[j]]) >= Tally(vs[i])
    ensures forall p :: 0 <= p <= j ==> !Sooner(vs[i], vs[order[p]])
  {
    forall p | 0 <= p < j
      ensures !Sooner(vs[i], vs[order[p]])
    {
      assert InOrder(vs, order[p], order[j]);
    }
  }

  /** The two backward scans: past narrower vectors, then past equally wide emptier ones. */
  method FindPlace(vs: seq<Vector>, i: nat, a: array<nat>, n: nat, ghost order: seq<nat>) returns (place: nat)
    requires i < |vs| && n <= i && n <= a.Length && order == a[..n] && OrderOK(vs, i, order)
    ensures place <= n
    ensures forall p :: 0 <= p < place ==> !Sooner(vs[i], vs[order[p]])
    ensures forall p :: place <= p < n ==> Sooner(vs[i], vs[order[p]])
  {
    hide InOrder;
    var t, w := Tally(vs[i]), vs[i].width;
    var j: int := n - 1;
    while j >= 0 && vs[a[j]].width < w
      invariant -1 <= j < n && forall p :: j < p < n ==> Sooner(vs[i], vs[order[p]])
    {
      assert order[j] == a[j];
      j := j - 1;
    }
    while j >= 0 && vs[a[j]].width == w && Tally(vs[a[j]]) < t
      invariant -1 <= j < n && forall p :: j < p < n ==> Sooner(vs[i], vs[order[p]])
      invariant j >= 0 ==> vs[order[j]].width >= w
    {
      assert order[j] == a[j];
      j := j - 1;
      if j >= 0 {
        WiderBefore(vs, i, order, j);
      }
    }
    place := j + 1;
    if j >= 0 {
      assert order[j] == a[j];
      NoneSooner(vs, i, order, i, j);
    }
  }

  lemma WiderBefore(vs: seq<Vector>, n: nat, order: seq<nat>, j: nat)
    requires n <= |vs| && OrderOK(vs, n, order) && j + 1 < |order|
    ensures vs[order[j]].width >= vs[order[j + 1]].width
  {
    assert InOrder(vs, order[j], order[j + 1]);
  }

  method ShiftRight(a: array<nat>, n: nat, j: nat)
    requires j <= n < a.Length
    modifies a
    ensures forall p :: 0 <= p < j ==> a[p] == old(a[p])
    ensures forall p :: j < p <= n ==> a[p] == old(a[p - 1])
  {
    var k := n;
    while k > j
      invariant j <= k <= n
      invariant forall p :: 0 <= p <= k ==> a[p] == old(a[p])
      invariant forall p :: k < p <= n ==> a[p] == old(a[p - 1])
    {
      a[k] := a[k - 1];
      k := k - 1;
    }
  }

  /** A cell of check; past the allocated end every cell is free. */
  function Cell(check: seq<int>, loc: int): int {
    if 0 <= loc < |check| then check[loc] else -1
  }

  /** Base j puts every entry of v on a free cell of the table. */
  ghost predicate Fits(v: Vector, check: seq<int>, j: int) {
    forall k :: 0 <= k < |v.froms| ==> j + v.froms[k] >= 0 && Cell(check, j + v.froms[k]) == -1
  }

  /** Base j may be given to v: nonzero, on free cells, and used by no earlier vector. */
  ghost predicate Feasible(v: Vector, check: seq<int>, pos: seq<int>, j: int) {
    j != 0 && Fits(v, check, j) && j !in pos
  }

  ghost predicate Holds(v: Vector, table: seq<int>, check: seq<int>, b: int)
    requires |table| == |check| && |v.froms| == |v.tos|
  {
    forall k :: 0 <= k < |v.froms| ==>
      0 <= b + v.froms[k] < |check| && check[b + v.froms[k]] == v.froms[k] && table[b + v.froms[k]] == v.tos[k]
  }

  /** Cell loc was written for some entry of the vector at place p of order. */
  ghost predicate WrittenBy(vs: seq<Vector>, order: seq<nat>, pos: seq<int>, p: nat, loc: int) {
    p < |order| && p < |pos| && order[p] < |vs| && loc - pos[p] >= 0 && loc - pos[p] in vs[order[p]].froms
  }

  ghost predicate Written(vs: seq<Vector>, order: seq<nat>, pos: seq<int>, n: nat, loc: int) {
    exists p: nat :: p < n && WrittenBy(vs, order, pos, p, loc)
  }

  datatype Table = Table(table: seq<int>, check: seq<int>, lowzero: nat, high: nat)

  /** The table after the first n ordered vectors. */
  ghost predicate Packed(vs: seq<Vector>, order: seq<nat>, n: nat, pos: seq<int>, T: Table) {
    && n <= |order| && |pos| == n && |T.table| == |T.check|
    && (forall p :: 0 <= p < n ==> order[p] < |vs| && VectorOK(vs[order[p]]) && pos[p] != 0)
    && (forall p :: 0 <= p < n ==> Holds(vs[order[p]], T.table, T.check, pos[p]))
    && (forall p, q :: 0 <= p < n && 0 <= q < n && pos[p] == pos[q] ==> Same(vs[order[p]], vs[order[q]]))
    && (forall loc: int :: Cell(T.check, loc) != -1 ==> loc <= T.high && Written(vs, order, pos, n, loc))
    && (forall loc: int :: 0 <= loc < T.lowzero ==> Cell(T.check, loc) != -1)
  }

  /** Reading vector entries the way the generated parser does. */
  predicate Found(T: Table, b: int, key: nat)
    requires |T.table| == |T.check|
  {
    b != 0 && b + key >= 0 && b + key <= T.high && Cell(T.check, b + key) == key
  }

  /** The table yields, for a packed vector, its keys and nothing else, with their entries. */
  lemma LookupExact(vs: seq<Vector>, order: seq<nat>, pos: seq<int>, T: Table, p: nat, key: nat)
    requires Packed(vs, order, |order|, pos, T) && p < |order|
    ensures Found(T, pos[p], key) <==> key in vs[order[p]].froms
    ensures forall k :: 0 <= k < |vs[order[p]].froms| && vs[order[p]].froms[k] == key ==>
              0 <= pos[p] + key < |T.table| && T.table[pos[p] + key] == vs[order[p]].tos[k]
  {
    if Found(T, pos[p], key) {
      FoundIsOwn(vs, order, pos, T, p, key);
    }
    assert Holds(vs[order[p]], T.table, T.check, pos[p]);
    assert pos[p] != 0 && forall loc: int :: Cell(T.check, loc) != -1 ==> loc <= T.high;
    hide Packed;
    if k :| 0 <= k < |vs[order[p]].froms| && vs[order[p]].froms[k] == key {
      assert Cell(T.check, pos[p] + vs[order[p]].froms[k]) == key;
    }
  }

  /** A hit with the base of a vector is an entry of that vector: whoever wrote the cell has the same
      base, hence the same entries. */
  lemma FoundIsOwn(vs: seq<Vector>, order: seq<nat>, pos: seq<int>, T: Table, p: nat, key: nat)
    requires Packed(vs, order, |order|, pos, T) && p < |order| && Found(T, pos[p], key)
    ensures key in vs[order[p]].froms
  {
    var q: nat :| q < |order| && WrittenBy(vs, order, pos, q, pos[p] + key);
    assert Holds(vs[order[q]], T.table, T.check, pos[q]);
    assert pos[p] == pos[q] ==> Same(vs[order[p]], vs[order[q]]);
    hide Packed;
    var k :| 0 <= k < |vs[order[q]].froms| && vs[order[q]].froms[k] == pos[p] + key - pos[q];
    assert pos[q] == pos[p];
  }

  ghost function Above(pos: seq<int>, n: nat): nat {
    if pos == [] then n
    else if pos[|pos| - 1] >= Above(pos[..|pos| - 1], n) then pos[|pos| - 1] + 1 else Above(pos[..|pos| - 1], n)
  }

  lemma {:induction false} AboveAll(pos: seq<int>, n: nat)
    ensures n <= Above(pos, n) && forall p :: 0 <= p < |pos| ==> pos[p] < Above(pos, n)
    decreases |pos|
  {
    if pos != [] {
      AboveAll(pos[..|pos| - 1], n);
    }
  }

  /** Past the table and past every used base, any vector fits: the search ends. */
  lemma FarIsFeasible(v: Vector, check: seq<int>, pos: seq<int>, j: int)
    requires j >= Above(pos, |check| + 1)
    ensures Feasible(v, check, pos, j)
  {
    AboveAll(pos, |check| + 1);
  }

  /** Starting at the least base that reaches no cell below lowzero skips nothing feasible. */
  lemma BelowLowzero(v: Vector, check: seq<int>, pos: seq<int>, lowzero: nat, j: int, k: nat)
    requires forall loc: int :: 0 <= loc < lowzero ==> Cell(check, loc) != -1
    requires k < |v.froms| && j < lowzero - v.froms[k]
    ensures !Feasible(v, check, pos, j)
  {
    assert j + v.froms[k] >= 0 ==> Cell(check, j + v.froms[k]) != -1;
  }

  ghost predicate SameCells(check: seq<int>, check': seq<int>) {
    forall loc: int :: Cell(check', loc) == Cell(check, loc)
  }

  lemma MoreFreeCells(check: seq<int>, check': seq<int>)
    requires check <= check' && forall l :: |check| <= l < |check'| ==> check'[l] == -1
    ensures SameCells(check, check')
  {}

  lemma FeasibleCells(v: Vector, check: seq<int>, check': seq<int>, pos: seq<int>, j: int)
    requires SameCells(check, check')
    ensures Feasible(v, check, pos, j) <==> Feasible(v, check', pos, j)
  {}

  /** A base not yet used that does not do puts some key on a cell that is not free. */
  lemma Obstacle(v: Vector, check: seq<int>, pos: seq<int>, i: int)
    requires !Feasible(v, check, pos, i) && i !in pos && i != 0
    ensures exists key :: key in v.froms && (i + key < 0 || (i + key < |check| && check[i + key] != -1))
  {
    var k :| 0 <= k < |v.froms| && !(i + v.froms[k] >= 0 && Cell(check, i + v.froms[k]) == -1);
    assert v.froms[k] in v.froms;
  }

  /** No base below j would do. */
  ghost predicate NoneBelow(v: Vector, check: seq<int>, pos: seq<int>, j: int) {
    forall i: int :: i < j ==> !Feasible(v, check, pos, i)
  }

  /** One more base refused: the search goes on, and is not yet past the last feasible base. */
  lemma SearchOn(v: Vector, check: seq<int>, pos: seq<int>, j: int)
    requires NoneBelow(v, check, pos, j) && !Feasible(v, check, pos, j)
    ensures NoneBelow(v, check, pos, j + 1) && j < Above(pos, |check| + 1)
  {
    if j >= Above(pos, |check| + 1) {
      FarIsFeasible(v, check, pos, j);
    }
  }

  /** Base j puts no key below location 0. */
  ghost predicate Reaches(v: Vector, j: int) {
    forall k :: 0 <= k < |v.froms| ==> j + v.froms[k] >= 0
  }

  class Packer {
    const vs: seq<Vector>
    const order: seq<nat>
    const nstates: nat
    var table: seq<int>
    var check: seq<int>
    var lowzero: nat
    var high: nat
    var pos: seq<int>

    ghost predicate Valid()
      reads this
    {
      && OrderOK(vs, |vs|, order) && (forall i :: 0 <= i < |vs| ==> VectorOK(vs[i]))
      && Packed(vs, order, |pos|, pos, Table(table, check, lowzero, high)) && high < |check|
    }

    constructor (vs: seq<Vector>, order: seq<nat>, nstates: nat)
      requires OrderOK(vs, |vs|, order) && forall i :: 0 <= i < |vs| ==> VectorOK(vs[i])
      ensures Valid() && this.vs == vs && this.order == order && this.nstates == nstates && pos == []
    {
      this.vs := vs;
      this.order := order;
      this.nstates := nstates;
      table := seq(1000, _ => 0);
      check := seq(1000, _ => -1);
      lowzero := 0;
      high := 0;
      pos := [];
    }

    /** The growth of table and check: by 200 until the location exists. */
    method Grow(loc: nat)
      requires |table| == |check|
      modifies `table, `check
      ensures |table| == |check| && loc < |check|
      ensures old(check) <= check && old(table) <= table
      ensures forall l :: old(|check|) <= l < |check| ==> check[l] == -1
    {
      if loc >= |check| {
        var newmax := |check| + 200;
        while newmax <= loc
          invariant newmax > |check|
          decreases loc - newmax
        {
          newmax := newmax + 200;
        }
        table := table + seq(newmax - |table|, _ => 0);
        check := check + seq(newmax - |check|, _ => -1);
      }
    }

    /** One candidate base: every cell free, and the base not used before. */
    method TryBase(v: Vector, j: int) returns (ok: bool)
      requires |table| == |check| && j != 0 && Reaches(v, j)
      modifies `table, `check
      ensures |table| == |check| && old(check) <= check && old(table) <= table
      ensures SameCells(old(check), check)
      ensures ok <==> Feasible(v, check, pos, j)
      ensures ok ==> forall k :: 0 <= k < |v.froms| ==> j + v.froms[k] < |check|
    {
      ok := true;
      var k := 0;
      while ok && k < |v.froms|
        invariant k <= |v.froms| && |table| == |check| && old(check) <= check && old(table) <= table && pos == old(pos)
        invariant SameCells(old(check), check)
        invariant ok ==> forall m :: 0 <= m < k ==> j + v.froms[m] < |check| && check[j + v.froms[m]] == -1
        invariant !ok ==> k > 0 && Cell(check, j + v.froms[k - 1]) != -1
      {
        var loc := j + v.froms[k];
        ghost var before := check;
        Grow(loc);
        MoreFreeCells(before, check);
        if check[loc] != -1 {
          ok := false;
        }
        k := k + 1;
      }
      var m := 0;
      while ok && m < |pos|
        invariant m <= |pos| && |table| == |check| && old(check) <= check && old(table) <= table && pos == old(pos)
        invariant SameCells(old(check), check)
        invariant ok ==> forall n :: 0 <= n < |v.froms| ==> j + v.froms[n] < |check| && check[j + v.froms[n]] == -1
        invariant ok ==> j !in pos[..m]
        invariant !ok ==> !Feasible(v, check, pos, j)
      {
        if pos[m] == j {
          ok := false;
        }
        m := m + 1;
      }
      assert pos[..m] == pos || !ok;
    }

    /** The stores of pack_vector at a feasible base. */
    method Store(v: Vector, j: int)
      requires VectorOK(v) && |table| == |check| && Fits(v, check, j) && forall k :: 0 <= k < |v.froms| ==>
          j + v.froms[k] < |check|
      modifies `table, `check, `high
      ensures |table| == |check| == old(|check|) && Holds(v, table, check, j) && high >= old(high)
      ensures forall k :: 0 <= k < |v.froms| ==> j + v.froms[k] <= high
      ensures old(high) < |check| ==> high < |check|
      ensures Untouched(v, j, old(table), old(check), table, check)
    {
      var k := 0;
      while k < |v.froms|
        invariant k <= |v.froms| && |table| == |check| == old(|check|) && high >= old(high) &&
            (old(high) < |check| ==> high < |check|)
        invariant forall m :: 0 <= m < k ==>
                    check[j + v.froms[m]] == v.froms[m] && table[j + v.froms[m]] == v.tos[m] && j + v.froms[m] <= high
        invariant forall l :: 0 <= l < |check| && l - j !in v.froms ==>
            check[l] == old(check)[l] && table[l] == old(table)[l]
      {
        var loc := j + v.froms[k];
        assert Cell(old(check), j + v.froms[k]) == -1;
        table := table[loc := v.tos[k]];
        check := check[loc := v.froms[k]];
        if loc > high {
          high := loc;
        }
        k := k + 1;
      }
    }

    /** The search of pack_vector: upwards from the first candidate to the least feasible base. */
    method SearchBase(v: Vector) returns (j: int)
      requires Valid() && |v.froms| > 0
      modifies `table, `check
      ensures Valid() && SameCells(old(check), check)
      ensures Feasible(v, old(check), pos, j) && forall k :: 0 <= k < |v.froms| ==> j + v.froms[k] < |check|
      ensures NoneBelow(v, old(check), pos, j)
    {
      ghost var check0 := check;
      j := FirstBase(v);
      hide Feasible, NoneBelow, Above, Cell, Fits, Packer.Valid;
      var ok := TryNext(v, j, check0);
      while !ok
        invariant Valid() && SameCells(check0, check) && Reaches(v, j) && NoneBelow(v, check0, pos, j)
        invariant ok <==> Feasible(v, check0, pos, j)
        invariant ok ==> forall k :: 0 <= k < |v.froms| ==> j + v.froms[k] < |check|
        decreases Above(pos, |check0| + 1) - j
      {
        SearchOn(v, check0, pos, j);
        j := j + 1;
        ok := TryNext(v, j, check0);
      }
    }

    /** One candidate, base 0 excepted, seen from the table the search started with. */
    method TryNext(v: Vector, j: int, ghost check0: seq<int>) returns (ok: bool)
      requires Valid() && Reaches(v, j) && SameCells(check0, check)
      modifies `table, `check
      ensures Valid() && SameCells(check0, check)
      ensures ok <==> Feasible(v, check0, pos, j)
      ensures ok ==> forall k :: 0 <= k < |v.froms| ==> j + v.froms[k] < |check|
    {
      if j == 0 {
        return false;
      }
      ghost var before := Table(table, check, lowzero, high);
      ok := TryBase(v, j);
      PackedGrow(vs, order, |pos|, pos, before, Table(table, check, lowzero, high));
      FeasibleCells(v, check0, check, pos, j);
    }

    /** pack_vector: the least feasible base, stored and entered into pos. */
    method PackVector()
      requires Valid() && |pos| < |order|
      modifies this
      ensures Valid() && |pos| == |old(pos)| + 1 && pos[..|old(pos)|] == old(pos)
      ensures Feasible(vs[order[|old(pos)|]], old(check), old(pos), pos[|old(pos)|])
      ensures NoneBelow(vs[order[|old(pos)|]], old(check), old(pos), pos[|old(pos)|])
      ensures forall i: int :: i < pos[|old(pos)|] && i !in old(pos) && i != 0 ==>
          exists key :: key in vs[order[|old(pos)|]].froms &&
              (i + key < 0 || (i + key < |old(check)| && old(check)[i + key] != -1))
    {
      ghost var check0 := check;
      var v := vs[order[|pos|]];
      var j := SearchBase(v);
      FeasibleCells(v, check0, check, pos, j);
      ghost var before := Table(table, check, lowzero, high);
      Store(v, j);
      PackedStore(vs, order, |pos|, pos, before, Table(table, check, lowzero, high), j);
      pos := pos + [j];
      RaiseLowzero();
      forall i: int | i < j && i !in old(pos) && i != 0
        ensures exists key :: key in v.froms && (i + key < 0 || (i + key < |check0| && check0[i + key] != -1))
      {
        Obstacle(v, check0, old(pos), i);
      }
    }

    method RaiseLowzero()
      requires Valid()
      modifies `lowzero
      ensures Valid()
    {
      while lowzero < |check| && check[lowzero] != -1
        invariant Valid()
        decreases |check| - lowzero
      {
        assert Cell(check, lowzero) != -1;
        lowzero := lowzero + 1;
      }
    }

    /** The base the search starts from: the least that keeps every key at or above lowzero. */
    method FirstBase(v: Vector) returns (j: int)
      requires Valid() && |v.froms| > 0
      ensures Reaches(v, j) && NoneBelow(v, check, pos, j)
    {
      j := lowzero - v.froms[0];
      var k := 1;
      ghost var top := 0;
      while k < |v.froms|
        invariant 1 <= k <= |v.froms| && top < k && j == lowzero - v.froms[top]
        invariant forall m :: 0 <= m < k ==> lowzero - v.froms[m] <= j
      {
        if lowzero - v.froms[k] > j {
          j := lowzero - v.froms[k];
          top := k;
        }
        k := k + 1;
      }
      forall i: int | i < j
        ensures !Feasible(v, check, pos, i)
      {
        BelowLowzero(v, check, pos, lowzero, i, top);
      }
    }

    /** matching_vector: an earlier vector with the same keys and entries, for a row; looked for
        among the equally wide and full ones right before. */
    method MatchingVector() returns (found: int)
      requires Valid() && |pos| < |order|
      ensures found < 0 || (found < |pos| && Same(vs[order[found]], vs[order[|pos|]]) && order[|pos|] < 2 * nstates)
      ensures found < 0 && order[|pos|] < 2 * nstates ==>
                forall p :: 0 <= p < |pos| && Level(vs[order[p]], vs[order[|pos|]]) ==>
                    !Same(vs[order[p]], vs[order[|pos|]])
      ensures found >= 0 ==> forall p :: found <= p < |pos| ==> Level(vs[order[p]], vs[order[|pos|]])
    {
      var i := order[|pos|];
      if i >= 2 * nstates {
        return -1;
      }
      var t, w := Tally(vs[i]), vs[i].width;
      var prev: int := |pos| - 1;
      while prev >= 0
        invariant -1 <= prev < |pos|
        invariant forall p :: prev < p < |pos| ==> Level(vs[order[p]], vs[i]) && !Same(vs[order[p]], vs[i])
      {
        var j := order[prev];
        if vs[j].width != w || Tally(vs[j]) != t {
          NoneLevelBefore(vs, order, prev, |pos|);
          return -1;
        }
        var match_ := true;
        var k := 0;
        while match_ && k < t
          invariant k <= t && (match_ ==> forall m :: 0 <= m < k ==>
              vs[j].froms[m] == vs[i].froms[m] && vs[j].tos[m] == vs[i].tos[m])
          invariant !match_ ==> !Same(vs[j], vs[i])
        {
          if vs[j].tos[k] != vs[i].tos[k] || vs[j].froms[k] != vs[i].froms[k] {
            match_ := false;
          }
          k := k + 1;
        }
        if match_ {
          assert Same(vs[j], vs[i]);
          return prev;
        }
        prev := prev - 1;
      }
      found := -1;
    }

    /** One entry of pack_table: the base of a matching vector, or a new one. */
    method PackOne()
      requires Valid() && |pos| < |order| && SharedRows(vs, order, nstates, pos, |pos|)
      modifies this
      ensures Valid() && |pos| == |old(pos)| + 1 && pos[..|old(pos)|] == old(pos)
      ensures SharedRows(vs, order, nstates, pos, |pos|)
    {
      ghost var before := pos;
      var state := MatchingVector();
      if state < 0 {
        PackVector();
        NewBase(vs, order, nstates, before, pos);
      } else {
        PackedShare(vs, order, |pos|, pos, Table(table, check, lowzero, high), state);
        SharedBase(vs, order, nstates, pos, state);
        pos := pos + [pos[state]];
      }
    }

    /** pack_table: every nonempty vector gets its base, every empty one keeps base 0. */
    method PackTable() returns (base: array<int>)
      requires Valid() && pos == []
      modifies this
      ensures Valid() && |pos| == |order|
      ensures fresh(base) && base.Length == |vs|
      ensures forall p :: 0 <= p < |order| ==> base[order[p]] == pos[p]
      ensures forall i: nat :: i < |vs| && Tally(vs[i]) == 0 ==> base[i] == 0
      ensures SharedRows(vs, order, nstates, pos, |order|)
    {
      base := new int[|vs|](_ => 0);
      var i := 0;
      while i < |order|
        invariant i == |pos| <= |order| && Valid()
        invariant forall p :: 0 <= p < i ==> base[order[p]] == pos[p]
        invariant forall v: nat :: v < |vs| && v !in order[..i] ==> base[v] == 0
        invariant SharedRows(vs, order, nstates, pos, i)
      {
        PackOne();
        OrderDistinct(vs, order, i);
        base[order[i]] := pos[i];
        assert order[..i + 1] == order[..i] + [order[i]];
        i := i + 1;
      }
      forall v: nat | v < |vs| && Tally(vs[v]) == 0
        ensures base[v] == 0
      {
        assert v !in order;
      }
    }
  }

  lemma OrderDistinct(vs: seq<Vector>, order: seq<nat>, i: nat)
    requires OrderOK(vs, |vs|, order) && i < |order|
    ensures forall p :: 0 <= p < i ==> order[p] != order[i]
  {
    forall p | 0 <= p < i
      ensures order[p] != order[i]
    {
      assert InOrder(vs, order[p], order[i]);
    }
  }

  /** Only the cells of v at base j differ. */
  ghost predicate Untouched(v: Vector, j: int, table: seq<int>, check: seq<int>, table': seq<int>, check': seq<int>) {
    && |table| == |check| == |table'| == |check'|
    && forall l :: 0 <= l < |check| && l - j !in v.froms ==> check'[l] == check[l] && table'[l] == table[l]
  }

  lemma HoldsGrow(v: Vector, T: Table, T': Table, b: int)
    requires |v.froms| == |v.tos| && |T.table| == |T.check| && |T'.table| == |T'.check|
    requires Holds(v, T.table, T.check, b) && T.check <= T'.check && T.table <= T'.table
    ensures Holds(v, T'.table, T'.check, b)
  {}

  lemma PackedGrow(vs: seq<Vector>, order: seq<nat>, n: nat, pos: seq<int>, T: Table, T': Table)
    requires Packed(vs, order, n, pos, T) && |T'.table| == |T'.check| && T.check <= T'.check && T.table <= T'.table
    requires T'.lowzero == T.lowzero && T'.high == T.high
    requires SameCells(T.check, T'.check)
    ensures Packed(vs, order, n, pos, T')
  {
    forall p | 0 <= p < n
      ensures Holds(vs[order[p]], T'.table, T'.check, pos[p])
    {
      HoldsGrow(vs[order[p]], T, T', pos[p]);
    }
  }

  /** Storing on free cells disturbs no earlier vector. */
  lemma HoldsStore(w: Vector, b: int, v: Vector, j: int, T: Table, T': Table)
    requires |w.froms| == |w.tos| && |T.table| == |T.check| && |T'.table| == |T'.check|
    requires Holds(w, T.table, T.check, b) && Fits(v, T.check, j)
    requires Untouched(v, j, T.table, T.check, T'.table, T'.check)
    ensures Holds(w, T'.table, T'.check, b)
  {
    forall k | 0 <= k < |w.froms|
      ensures T'.check[b + w.froms[k]] == w.froms[k] && T'.table[b + w.froms[k]] == w.tos[k]
    {
      NotOnFree(v, T.check, j, b + w.froms[k]);
    }
  }

  lemma NotOnFree(v: Vector, check: seq<int>, j: int, loc: int)
    requires Fits(v, check, j) && Cell(check, loc) != -1
    ensures loc - j !in v.froms
  {}

  lemma PackedStore(vs: seq<Vector>, order: seq<nat>, n: nat, pos: seq<int>, T: Table, T': Table, j: int)
    requires Packed(vs, order, n, pos, T) && n < |order| && order[n] < |vs| && VectorOK(vs[order[n]])
    requires Feasible(vs[order[n]], T.check, pos, j) && |T'.table| == |T'.check|
    requires Holds(vs[order[n]], T'.table, T'.check, j)
    requires Untouched(vs[order[n]], j, T.table, T.check, T'.table, T'.check)
    requires T'.high >= T.high && T'.lowzero == T.lowzero
    requires forall k :: 0 <= k < |vs[order[n]].froms| ==> j + vs[order[n]].froms[k] <= T'.high
    ensures Packed(vs, order, n + 1, pos + [j], T')
  {
    var v := vs[order[n]];
    var pos' := pos + [j];
    forall p | 0 <= p < n
      ensures Holds(vs[order[p]], T'.table, T'.check, pos'[p])
    {
      HoldsStore(vs[order[p]], pos[p], v, j, T, T');
    }
    forall p, q | 0 <= p < n + 1 && 0 <= q < n + 1 && pos'[p] == pos'[q]
      ensures Same(vs[order[p]], vs[order[q]])
    {
      assert forall m :: 0 <= m < n ==> pos[m] in pos;
    }
    forall loc: int | Cell(T'.check, loc) != -1
      ensures loc <= T'.high && Written(vs, order, pos', n + 1, loc)
    {
      if 0 <= loc - j && loc - j in v.froms {
        assert WrittenBy(vs, order, pos', n, loc);
      } else {
        assert Cell(T.check, loc) != -1;
        var p: nat :| p < n && WrittenBy(vs, order, pos, p, loc);
        assert WrittenBy(vs, order, pos', p, loc);
      }
    }
    forall loc: int | 0 <= loc < T'.lowzero
      ensures Cell(T'.check, loc) != -1
    {
      assert Cell(T.check, loc) != -1;
      NotOnFree(v, T.check, j, loc);
    }
  }

  /** Giving a vector the base of an equal one keeps the table right as it is. */
  lemma PackedShare(vs: seq<Vector>, order: seq<nat>, n: nat, pos: seq<int>, T: Table, q: nat)
    requires Packed(vs, order, n, pos, T) && n < |order| && order[n] < |vs| && VectorOK(vs[order[n]])
    requires q < n && Same(vs[order[q]], vs[order[n]])
    ensures Packed(vs, order, n + 1, pos + [pos[q]], T)
  {
    var pos' := pos + [pos[q]];
    assert Holds(vs[order[q]], T.table, T.check, pos[q]);
    forall loc: int | Cell(T.check, loc) != -1
      ensures Written(vs, order, pos', n + 1, loc)
    {
      var p: nat :| p < n && WrittenBy(vs, order, pos, p, loc);
      assert WrittenBy(vs, order, pos', p, loc);
    }
  }

  /** Identical rows of shifts or reductions share their base. */
  ghost predicate SharedRows(vs: seq<Vector>, order: seq<nat>, nstates: nat, pos: seq<int>, n: nat)
    requires n <= |pos| && n <= |order|
  {
    forall p, q :: 0 <= p < q < n && RowPair(vs, order, nstates, p, q) ==> pos[p] == pos[q]
  }

  ghost predicate RowPair(vs: seq<Vector>, order: seq<nat>, nstates: nat, p: nat, q: nat)
    requires p < |order| && q < |order|
  {
    && order[p] < |vs| && order[q] < |vs| && order[p] < 2 * nstates && order[q] < 2 * nstates
    && Level(vs[order[p]], vs[order[q]]) && Same(vs[order[p]], vs[order[q]])
  }

  lemma NoneLevelBefore(vs: seq<Vector>, order: seq<nat>, q: nat, n: nat)
    requires OrderOK(vs, |vs|, order) && q < n < |order| && !Level(vs[order[q]], vs[order[n]])
    ensures forall p :: 0 <= p <= q ==> !Level(vs[order[p]], vs[order[n]])
  {
    forall p | 0 <= p <= q
      ensures !Level(vs[order[p]], vs[order[n]])
    {
      assert p < q ==> InOrder(vs, order[p], order[q]);
      assert InOrder(vs, order[q], order[n]);
    }
  }

  lemma NewBase(vs: seq<Vector>, order: seq<nat>, nstates: nat, pos: seq<int>, pos': seq<int>)
    requires |pos'| == |pos| + 1 && pos'[..|pos|] == pos && |pos| < |order| &&
        SharedRows(vs, order, nstates, pos, |pos|)
    requires order[|pos|] < |vs| && forall p :: 0 <= p < |pos| ==> order[p] < |vs|
    requires order[|pos|] < 2 * nstates ==>
               forall p :: 0 <= p < |pos| && Level(vs[order[p]], vs[order[|pos|]]) ==>
                   !Same(vs[order[p]], vs[order[|pos|]])
    ensures SharedRows(vs, order, nstates, pos', |pos'|)
  {
    assert forall p :: 0 <= p < |pos| ==> pos'[p] == pos[p];
  }

  /** Everything between two identical rows is itself a row, so the nearest match has their base. */
  lemma SharedBase(vs: seq<Vector>, order: seq<nat>, nstates: nat, pos: seq<int>, q: nat)
    requires OrderOK(vs, |vs|, order) && q < |pos| < |order| && SharedRows(vs, order, nstates, pos, |pos|)
    requires order[|pos|] < 2 * nstates && Same(vs[order[q]], vs[order[|pos|]])
    requires forall p :: q <= p < |pos| ==> Level(vs[order[p]], vs[order[|pos|]])
    ensures SharedRows(vs, order, nstates, pos + [pos[q]], |pos| + 1)
  {
    var n := |pos|;
    assert InOrder(vs, order[q], order[n]);
    forall p | 0 <= p < n && RowPair(vs, order, nstates, p, n)
      ensures pos[p] == pos[q]
    {
      if p < q {
        assert InOrder(vs, order[p], order[q]);
        assert RowPair(vs, order, nstates, p, q);
      } else if q < p {
        assert RowPair(vs, order, nstates, q, p);
      }
    }
  }
}

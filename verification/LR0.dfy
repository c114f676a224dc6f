/** lr0.c: the canonical collection of LR(0) item sets, built by a worklist over kernels with a
    hash on the first kernel item. */
module LR0 {
  import opened Reachability
  import opened Grammar
  import opened Closure

  /** A state: the symbol it is entered by and its kernel. Its number is its place in the list. */
  datatype Core = Core(accessing: nat, items: seq<nat>)

  /** The states, and per state its shift targets and its complete rules. A state that has no
      shifts or reductions record has an empty list here. */
  datatype Automaton = Automaton(states: seq<Core>, shifts: seq<seq<nat>>, reductions: seq<seq<nat>>)

  /** The items of S moved over X. */
  ghost function Advance(g: Packed, S: iset<nat>, X: nat): iset<nat> {
    iset j: nat | MovedItem(g, S, X, j)
  }

  ghost predicate MovedItem(g: Packed, S: iset<nat>, X: nat, j: nat) {
    1 <= j <= |g.ritem| && j - 1 in S && g.ritem[j - 1] == X
  }

  ghost predicate HasSymbol(g: Packed, S: iset<nat>, X: nat) {
    exists i: nat :: i in S && i < |g.ritem| && g.ritem[i] == X
  }

  /** The rules whose closing marker is in S. */
  ghost function Complete(g: Packed, S: iset<nat>): iset<nat> {
    iset r: nat | CompleteIn(g, S, r)
  }

  ghost predicate CompleteIn(g: Packed, S: iset<nat>, r: nat) {
    exists i: nat :: i in S && i < |g.ritem| && g.ritem[i] < 0 && g.ritem[i] + r == 0
  }

  ghost predicate KernelOK(g: Packed, c: Core) {
    && c.items != [] && Ascending(c.items) && 0 < c.accessing < g.nsyms
    && forall j :: j in c.items ==> 2 <= j < |g.ritem| && g.ritem[j - 1] == c.accessing
  }

  /** State 0 holds the start item alone; the other kernels are real and all are distinct. */
  ghost predicate StatesOK(g: Packed, states: seq<Core>) {
    && |states| > 0 && states[0] == Core(0, [1])
    && (forall t :: 0 < t < |states| ==> KernelOK(g, states[t]))
    && (forall s, t :: 0 <= s < t < |states| ==> states[s].items != states[t].items)
  }

  /** t is the state entered from the closure S over X. */
  ghost predicate GotoOK(g: Packed, states: seq<Core>, S: iset<nat>, X: nat, t: nat) {
    0 < t < |states| && states[t].accessing == X && Lists(states[t].items, Advance(g, S, X))
  }

  /** The shift row of a state: one target per symbol after a dot other than the end token, by
      ascending symbol. */
  ghost predicate ShiftsOK(g: Packed, states: seq<Core>, S: iset<nat>, row: seq<nat>) {
    && (forall k :: 0 <= k < |row| ==> row[k] < |states| && states[row[k]].accessing > 0)
    && (forall k :: 0 <= k < |row| ==> GotoOK(g, states, S, states[row[k]].accessing, row[k]))
    && (forall k, m :: 0 <= k < m < |row| ==> states[row[k]].accessing < states[row[m]].accessing)
    && (forall X: nat :: X > 0 && HasSymbol(g, S, X) ==> exists k :: 0 <= k < |row| && states[row[k]].accessing == X)
  }

  ghost predicate RowsOK(g: Packed, states: seq<Core>, shifts: seq<seq<nat>>, reductions: seq<seq<nat>>, q: nat)
    requires q < |states| && q < |shifts| && q < |reductions|
  {
    && ShiftsOK(g, states, ClosureOf(g, states[q].items), shifts[q])
    && Lists(reductions[q], Complete(g, ClosureOf(g, states[q].items)))
  }

  /** The canonical LR(0) collection: distinct kernels, every goto present with its targets
      sorted by symbol, and every state but 0 the target of an earlier one. */
  ghost predicate Canonical(g: Packed, A: Automaton) {
    && StatesOK(g, A.states) && |A.shifts| == |A.reductions| == |A.states|
    && (forall q: nat :: q < |A.states| ==> RowsOK(g, A.states, A.shifts, A.reductions, q))
    && (forall t: nat :: 0 < t < |A.states| ==> EnteredEarlier(A.shifts, t))
  }

  ghost predicate EnteredEarlier(shifts: seq<seq<nat>>, t: nat) {
    exists q: nat :: q < t && q < |shifts| && t in shifts[q]
  }

  ghost function Powerset(n: nat): set<set<nat>> {
    if n == 0 then {{}} else Powerset(n - 1) + WithEach(Powerset(n - 1), n - 1)
  }

  ghost function WithEach(P: set<set<nat>>, x: nat): set<set<nat>> {
    set s | s in P :: s + {x}
  }

  lemma {:induction false} InPowerset(n: nat, s: set<nat>)
    requires forall x :: x in s ==> x < n
    ensures s in Powerset(n)
  {
    if n == 0 {
      assert s == {};
    } else if n - 1 in s {
      InPowerset(n - 1, s - {n - 1});
      assert s == (s - {n - 1}) + {n - 1};
    } else {
      InPowerset(n - 1, s);
    }
  }

  ghost function Kernels(states: seq<Core>): set<set<nat>> {
    set t: nat | t < |states| :: Elements(states[t].items)
  }

  /** The item sets not yet used as a kernel: what bounds the construction. */
  ghost function Unused(g: Packed, states: seq<Core>): set<set<nat>> {
    Powerset(|g.ritem|) - Kernels(states)
  }

  lemma SameElements(s: seq<nat>, t: seq<nat>)
    requires Ascending(s) && Ascending(t) && Elements(s) == Elements(t)
    ensures s == t
  {
    var S := iset x: nat | x in s;
    assert forall x: nat :: x in s <==> x in Elements(s);
    assert forall x: nat :: x in t <==> x in Elements(t);
    ListsUnique(s, t, S);
  }

  lemma NewKernelUses(g: Packed, states: seq<Core>, c: Core)
    requires g.WellFormed() && StatesOK(g, states) && StatesOK(g, states + [c])
    ensures Unused(g, states + [c]) < Unused(g, states)
  {
    var K := Elements(c.items);
    var n := |states|;
    assert (states + [c])[n] == c && KernelOK(g, c);
    InPowerset(|g.ritem|, K);
    forall t: nat | t < n
      ensures Elements(states[t].items) != K
    {
      assert (states + [c])[t] == states[t];
      if Elements(states[t].items) == K {
        SameElements(states[t].items, c.items);
      }
    }
    assert K !in Kernels(states) && K in Kernels(states + [c]);
    forall k | k in Kernels(states)
      ensures k in Kernels(states + [c])
    {
      var t: nat :| t < n && Elements(states[t].items) == k;
      assert (states + [c])[t] == states[t];
    }
  }

  /** Rows stay right when states are added. */
  lemma RowsStay(g: Packed, states: seq<Core>, states': seq<Core>, shifts: seq<seq<nat>>, reductions: seq<seq<nat>>,
                 q: nat)
    requires states <= states' && q < |states| && q < |shifts| && q < |reductions|
    requires RowsOK(g, states, shifts, reductions, q)
    ensures RowsOK(g, states', shifts, reductions, q)
  {
    var S := ClosureOf(g, states[q].items);
    var row := shifts[q];
    forall k | 0 <= k < |row|
      ensures GotoOK(g, states', S, states'[row[k]].accessing, row[k])
    {
      assert GotoOK(g, states, S, states[row[k]].accessing, row[k]);
    }
    forall X: nat | X > 0 && HasSymbol(g, S, X)
      ensures exists k :: 0 <= k < |row| && states'[row[k]].accessing == X
    {
      var k :| 0 <= k < |row| && states[row[k]].accessing == X;
      assert states'[row[k]].accessing == X;
    }
  }

  /** The hash chains: state t > 0 is on the chain of its first kernel item, and only there. */
  ghost predicate ChainsOK(states: seq<Core>, chains: seq<seq<nat>>) {
    forall key: nat, t: nat :: key < |chains| ==> (t in chains[key] <==> HasKey(states, t, key))
  }

  ghost predicate HasKey(states: seq<Core>, t: nat, key: nat) {
    0 < t < |states| && states[t].items != [] && states[t].items[0] == key
  }

  ghost function ISet(s: seq<nat>): iset<nat> {
    iset x: nat | x in s
  }

  /** kernel[X] lists the items of s moved over X, for every symbol but the end token. */
  ghost predicate KernelsOf(g: Packed, s: seq<nat>, kernel: seq<seq<nat>>) {
    |kernel| == g.nsyms && forall X: nat :: 0 < X < g.nsyms ==> Lists(kernel[X], Advance(g, ISet(s), X))
  }

  /** symbols names, once each, the symbols whose kernel buffer is not empty. */
  ghost predicate SymbolsOf(g: Packed, symbols: seq<nat>, kernel: seq<seq<nat>>)
    requires |kernel| == g.nsyms
  {
    && (forall p, q :: 0 <= p < q < |symbols| ==> symbols[p] != symbols[q])
    && (forall X: nat :: X in symbols <==> 0 < X < g.nsyms && kernel[X] != [])
  }

  /** One item of new_itemsets before symbol X. */
  lemma PushItem(g: Packed, s: seq<nat>, n: nat, kernel: seq<seq<nat>>)
    requires n < |s| && Ascending(s) && s[n] < |g.ritem| && 0 <= g.ritem[s[n]] < g.nsyms
    requires KernelsOf(g, s[..n], kernel)
    ensures var X := g.ritem[s[n]];
            KernelsOf(g, s[..n + 1], if X > 0 then kernel[X := kernel[X] + [s[n] + 1]] else kernel)
  {
    var X := g.ritem[s[n]];
    var kernel' := if X > 0 then kernel[X := kernel[X] + [s[n] + 1]] else kernel;
    assert s[..n + 1] == s[..n] + [s[n]];
    forall Y: nat | 0 < Y < g.nsyms
      ensures Lists(kernel'[Y], Advance(g, ISet(s[..n + 1]), Y))
    {
      if Y == X {
        ListsAppend(kernel[Y], Advance(g, ISet(s[..n]), Y), s[n] + 1);
        assert Advance(g, ISet(s[..n + 1]), Y) == Advance(g, ISet(s[..n]), Y) + iset{s[n] + 1};
      } else {
        assert Advance(g, ISet(s[..n + 1]), Y) == Advance(g, ISet(s[..n]), Y);
      }
    }
  }

  lemma SkipItem(g: Packed, s: seq<nat>, n: nat, kernel: seq<seq<nat>>)
    requires n < |s| && s[n] < |g.ritem| && g.ritem[s[n]] < 0 && KernelsOf(g, s[..n], kernel)
    ensures KernelsOf(g, s[..n + 1], kernel)
  {
    assert s[..n + 1] == s[..n] + [s[n]];
    forall Y: nat | 0 < Y < g.nsyms
      ensures Lists(kernel[Y], Advance(g, ISet(s[..n + 1]), Y))
    {
      assert Advance(g, ISet(s[..n + 1]), Y) == Advance(g, ISet(s[..n]), Y);
    }
  }

  ghost predicate Sorted(s: seq<nat>) {
    forall p, q :: 0 <= p < q < |s| ==> s[p] <= s[q]
  }

  /** new_itemsets: the kernels over every symbol after a dot of itemset. */
  method NewItemsets(g: Packed, itemset: seq<nat>, kernel: array<seq<nat>>, shiftSymbol: array<nat>)
    returns (nshifts: nat)
    requires g.WellFormed() && Ascending(itemset) && kernel.Length == shiftSymbol.Length == g.nsyms
    requires forall p :: 0 <= p < |itemset| ==> itemset[p] < |g.ritem| && g.ritem[itemset[p]] < g.nsyms
    modifies kernel, shiftSymbol
    ensures nshifts <= g.nsyms && KernelsOf(g, itemset, kernel[..]) && SymbolsOf(g, shiftSymbol[..nshifts], kernel[..])
  {
    var i := 0;
    while i < g.nsyms
      invariant i <= g.nsyms && forall k :: 0 <= k < i ==> kernel[k] == []
    {
      kernel[i] := [];
      i := i + 1;
    }
    nshifts := 0;
    var isp := 0;
    while isp < |itemset|
      invariant isp <= |itemset| && nshifts <= g.nsyms
      invariant KernelsOf(g, itemset[..isp], kernel[..])
      invariant SymbolsOf(g, shiftSymbol[..nshifts], kernel[..])
    {
      ghost var before := kernel[..];
      ghost var symbols := shiftSymbol[..nshifts];
      var symbol := g.ritem[itemset[isp]];
      if symbol > 0 {
        PushItem(g, itemset, isp, before);
        if kernel[symbol] == [] {
          assert forall p :: 0 <= p < |symbols| ==> symbols[p] in symbols;
          Pigeonhole(symbols + [symbol], g.nsyms);
          shiftSymbol[nshifts] := symbol;
          nshifts := nshifts + 1;
          assert shiftSymbol[..nshifts] == symbols + [symbol];
        }
        kernel[symbol] := kernel[symbol] + [itemset[isp] + 1];
        assert kernel[..] == before[symbol := before[symbol] + [itemset[isp] + 1]];
      } else if symbol == 0 {
        PushItem(g, itemset, isp, before);
      } else {
        SkipItem(g, itemset, isp, before);
      }
      isp := isp + 1;
    }
    assert itemset[..isp] == itemset;
  }

  /** The insertion sort of append_states. */
  method SortSymbols(a: array<nat>, n: nat)
    requires n <= a.Length
    modifies a
    ensures Sorted(a[..n]) && multiset(a[..n]) == multiset(old(a[..n]))
  {
    var i := 1;
    while i < n
      invariant n >= 1 ==> 1 <= i <= n
      invariant n >= 1 ==> Sorted(a[..i])
      invariant multiset(a[..n]) == multiset(old(a[..n]))
    {
      assert forall p, q :: 0 <= p < q < i ==> a[..i][p] <= a[..i][q];
      InsertSymbol(a, n, i);
      i := i + 1;
    }
  }

  /** s with the element at i moved down to j. */
  ghost function MoveDown(s: seq<nat>, j: nat, i: nat): seq<nat>
    requires j <= i < |s|
  {
    seq(|s|, k requires 0 <= k < |s| => if k < j || k > i then s[k] else if k == j then s[i] else s[k - 1])
  }

  lemma MoveDownPermutes(s: seq<nat>, j: nat, i: nat)
    requires j <= i < |s|
    ensures multiset(MoveDown(s, j, i)) == multiset(s)
  {
    assert MoveDown(s, j, i) == s[..j] + [s[i]] + s[j..i] + s[i + 1..];
    assert s == s[..j] + s[j..i] + [s[i]] + s[i + 1..];
  }

  lemma MoveDownSorts(s: seq<nat>, j: nat, i: nat)
    requires j <= i < |s| && forall p, q :: 0 <= p < q < i ==> s[p] <= s[q]
    requires j > 0 ==> s[j - 1] <= s[i]
    requires forall k :: j <= k < i ==> s[k] > s[i]
    ensures Sorted(MoveDown(s, j, i)[..i + 1])
  {
  }

  /** One round: the element at i goes down past the larger ones before it. */
  method InsertSymbol(a: array<nat>, n: nat, i: nat)
    requires 1 <= i < n <= a.Length && forall p, q :: 0 <= p < q < i ==> a[p] <= a[q]
    modifies a
    ensures Sorted(a[..i + 1]) && multiset(a[..n]) == multiset(old(a[..n]))
  {
    ghost var s := a[..n];
    ghost var j := ShiftUp(a, n, i);
    MoveDownSorts(s, j, i);
    MoveDownPermutes(s, j, i);
    assert a[..i + 1] == a[..n][..i + 1];
  }

  method ShiftUp(a: array<nat>, n: nat, i: nat) returns (j: nat)
    requires 1 <= i < n <= a.Length
    modifies a
    ensures j <= i && a[..n] == MoveDown(old(a[..n]), j, i)
    ensures j > 0 ==> old(a[j - 1]) <= old(a[i])
    ensures forall k :: j <= k < i ==> old(a[k]) > old(a[i])
  {
    var symbol := a[i];
    j := i;
    while j > 0 && a[j - 1] > symbol
      invariant j <= i
      invariant forall k :: 0 <= k < n && (k <= j || k > i) ==> a[k] == old(a[k])
      invariant forall k :: j < k <= i ==> a[k] == old(a[k - 1])
      invariant forall k :: j <= k < i ==> old(a[k]) > symbol
    {
      a[j] := a[j - 1];
      j := j - 1;
    }
    a[j] := symbol;
  }

  /** save_reductions: the rules completed in itemset. Item order is rule order. */
  method SaveReductions(g: Packed, itemset: seq<nat>) returns (rules: seq<nat>)
    requires g.WellFormed() && Ascending(itemset) && forall p :: 0 <= p < |itemset| ==> 1 <= itemset[p] < |g.ritem|
    ensures Lists(rules, Complete(g, ISet(itemset)))
  {
    rules := [];
    var isp := 0;
    while isp < |itemset|
      invariant isp <= |itemset|
      invariant Lists(rules, Complete(g, ISet(itemset[..isp])))
    {
      var item := g.ritem[itemset[isp]];
      assert itemset[..isp + 1] == itemset[..isp] + [itemset[isp]];
      if item < 0 {
        CompletesInOrder(g, itemset, isp);
        ListsAppend(rules, Complete(g, ISet(itemset[..isp])), -item);
        rules := rules + [-item];
      } else {
        assert Complete(g, ISet(itemset[..isp + 1])) == Complete(g, ISet(itemset[..isp]));
      }
      isp := isp + 1;
    }
    assert itemset[..isp] == itemset;
  }

  lemma CompletesInOrder(g: Packed, itemset: seq<nat>, n: nat)
    requires g.WellFormed() && Ascending(itemset) && forall p :: 0 <= p < |itemset| ==> 1 <= itemset[p] < |g.ritem|
    requires n < |itemset| && g.ritem[itemset[n]] < 0
    ensures forall r: nat :: r in Complete(g, ISet(itemset[..n])) ==> r < -g.ritem[itemset[n]]
    ensures Complete(g, ISet(itemset[..n + 1])) == Complete(g, ISet(itemset[..n])) + iset{-g.ritem[itemset[n]]}
  {
    var x := itemset[n];
    var q := ItemHasRule(g, x);
    ItemAt(g, x, q);
    assert itemset[..n + 1] == itemset[..n] + [x];
    forall r: nat | r in Complete(g, ISet(itemset[..n]))
      ensures r < q
    {
      var i: nat :| i in ISet(itemset[..n]) && i < |g.ritem| && g.ritem[i] < 0 && g.ritem[i] + r == 0;
      var p :| 0 <= p < n && itemset[p] == i;
      var r' := ItemHasRule(g, i);
      ItemAt(g, i, r');
      if q <= r {
        RrhsAscends(g, q + 1, r + 1);
      }
    }
  }

  class Builder {
    const g: Packed
    const sets: ItemSets
    const stateSet: array<seq<nat>>
    const kernel: array<seq<nat>>
    const shiftSymbol: array<nat>
    var states: seq<Core>
    var shifts: seq<seq<nat>>
    var reductions: seq<seq<nat>>

    /** The state list, its hash, and the buffers new kernels are collected in. */
    ghost predicate ValidStates()
      reads this, stateSet
    {
      && g.WellFormed() && stateSet != kernel
      && stateSet.Length == |g.ritem| && kernel.Length == g.nsyms && shiftSymbol.Length == g.nsyms
      && StatesOK(g, states) && ChainsOK(states, stateSet[..])
    }

    ghost predicate Valid()
      reads this, stateSet, sets, sets.firstDerives, sets.ruleset
    {
      ValidStates() && sets.Valid() && sets.g == g
    }

    /** initialize_states, after the storage is allocated. */
    constructor (g: Packed, derives: array<seq<nat>>)
      requires g.WellFormed() && DerivesLists(g, derives[..])
      ensures Valid() && this.g == g && states == [Core(0, [1])] && shifts == reductions == []
      ensures fresh(sets) && fresh(sets.firstDerives) && fresh(sets.ruleset)
      ensures fresh(stateSet) && fresh(kernel) && fresh(shiftSymbol)
    {
      var s := new ItemSets(g, derives);
      this.g := g;
      sets := s;
      stateSet := new seq<nat>[|g.ritem|](_ => []);
      kernel := new seq<nat>[g.nsyms](_ => []);
      shiftSymbol := new nat[g.nsyms](_ => 0);
      states := [Core(0, [1])];
      shifts := [];
      reductions := [];
    }

    /** get_state: the state whose kernel is the buffer of symbol, made if there is none. */
    method GetState(symbol: nat) returns (number: nat)
      requires ValidStates() && 0 < symbol < g.nsyms && KernelOK(g, Core(symbol, kernel[symbol]))
      modifies `states, stateSet
      ensures ValidStates() && old(states) <= states && 0 < number < |states|
      ensures states[number] == Core(symbol, kernel[symbol])
      ensures states == old(states) || (states == old(states) + [Core(symbol, kernel[symbol])] &&
          number == |old(states)|)
    {
      var items := kernel[symbol];
      var key := items[0];
      assert key in items;
      var chain := stateSet[key];
      var link := 0;
      while link < |chain|
        invariant link <= |chain| && states == old(states) && ValidStates() && chain == stateSet[key] &&
            items == kernel[symbol]
        invariant forall k :: 0 <= k < link ==> 0 < chain[k] < |states| && states[chain[k]].items != items
      {
        number := chain[link];
        assert number in stateSet[..][key];
        if states[number].items == items {
          SameAccess(g, states[number], Core(symbol, items));
          return;
        }
        link := link + 1;
      }
      number := NewState(symbol, key);
    }

    /** new_state, appended to the list and to the chain of its key. */
    method NewState(symbol: nat, ghost key: nat) returns (number: nat)
      requires ValidStates() && 0 < symbol < g.nsyms && KernelOK(g, Core(symbol, kernel[symbol]))
      requires key == kernel[symbol][0] && key < |g.ritem|
      requires forall k :: 0 <= k < |stateSet[key]| ==>
                 stateSet[key][k] < |states| && states[stateSet[key][k]].items != kernel[symbol]
      modifies `states, stateSet
      ensures ValidStates() && number == |old(states)| && states == old(states) + [Core(symbol, kernel[symbol])]
    {
      number := |states|;
      var p := Core(symbol, kernel[symbol]);
      NewIsDistinct(g, states, stateSet[..], p);
      ghost var chains := stateSet[..];
      ChainsAppend(states, chains, p);
      states := states + [p];
      stateSet[p.items[0]] := stateSet[p.items[0]] + [number];
      assert stateSet[..] == chains[p.items[0] := chains[p.items[0]] + [number]];
    }

    /** get_state on a filled buffer, seen from the closure it was filled from. */
    method Target(symbol: nat, ghost S: iset<nat>) returns (t: nat)
      requires ValidStates() && 0 < symbol < g.nsyms && kernel[symbol] != []
      requires Lists(kernel[symbol], Advance(g, S, symbol))
      requires forall i :: i in S ==> 1 <= i < |g.ritem| && g.ritem[i] < g.nsyms
      modifies `states, stateSet
      ensures ValidStates() && old(states) <= states && GotoOK(g, states, S, symbol, t)
      ensures states == old(states) ||
              (|states| == |old(states)| + 1 && t == |old(states)| && Unused(g, states) < Unused(g, old(states)))
    {
      BufferIsKernel(g, S, symbol, kernel[symbol]);
      ghost var before := states;
      t := GetState(symbol);
      if before != states {
        NewKernelUses(g, before, Core(symbol, kernel[symbol]));
      }
    }

    /** append_states: sorts the shift symbols and finds or makes the target of each. */
    method AppendStates(nshifts: nat, ghost S: iset<nat>) returns (shiftset: seq<nat>)
      requires ValidStates() && nshifts <= g.nsyms
      requires SymbolsOf(g, shiftSymbol[..nshifts], kernel[..])
      requires forall X: nat :: 0 < X < g.nsyms ==> Lists(kernel[X], Advance(g, S, X))
      requires forall i :: i in S ==> 1 <= i < |g.ritem| && g.ritem[i] < g.nsyms
      modifies `states, stateSet, shiftSymbol
      ensures ValidStates() && old(states) <= states && ShiftsOK(g, states, S, shiftset)
      ensures forall t :: |old(states)| <= t < |states| ==> t in shiftset
      ensures |old(states)| < |states| ==> Unused(g, states) < Unused(g, old(states))
    {
      hide GotoOK, ShiftsOK, Unused, Advance, Lists;
      ghost var symbols := shiftSymbol[..nshifts];
      SortSymbols(shiftSymbol, nshifts);
      ghost var sorted := shiftSymbol[..nshifts];
      SortedSymbols(g, symbols, sorted, kernel[..]);
      shiftset := [];
      var i := 0;
      while i < nshifts
        invariant i <= nshifts && ValidStates() && shiftSymbol[..nshifts] == sorted && kernel[..] == old(kernel[..])
        invariant Targets(g, old(states), states, S, sorted[..i], shiftset)
      {
        var symbol := shiftSymbol[i];
        assert symbol == sorted[i] && symbol in sorted && sorted[..i + 1] == sorted[..i] + [symbol];
        ghost var before := states;
        var t := Target(symbol, S);
        TargetsStep(g, old(states), before, states, S, sorted[..i], shiftset, symbol, t);
        shiftset := shiftset + [t];
        i := i + 1;
      }
      assert sorted[..i] == sorted;
      RowComplete(g, states, S, sorted, shiftset, kernel[..]);
    }

    /** One round of generate_states: the closure of a state, its reductions and its shifts. */
    method CloseState(q: nat)
      requires Valid() && q == |shifts| == |reductions| && q < |states|
      modifies this, stateSet, kernel, shiftSymbol, sets, sets.ruleset
      ensures Valid() && old(states) <= states
      ensures |shifts| == |reductions| == q + 1 && shifts[..q] == old(shifts) && reductions[..q] == old(reductions)
      ensures RowsOK(g, states, shifts, reductions, q)
      ensures forall t :: |old(states)| <= t < |states| ==> t in shifts[q]
      ensures |old(states)| < |states| ==> Unused(g, states) < Unused(g, old(states))
    {
      ghost var S := ClosureOf(g, states[q].items);
      StateItems(g, states, q);
      ClosureItems(g, states[q].items);
      assert forall p :: 0 <= p < |states[q].items| ==> states[q].items[p] in states[q].items;
      KernelBelowSyms(g, states[q].items);
      sets.Closure(states[q].items);
      var itemset := sets.itemset;
      assert forall p :: 0 <= p < |itemset| ==> itemset[p] in itemset;
      assert ISet(itemset) == S;
      var rules := SaveReductions(g, itemset);
      var nshifts := NewItemsets(g, itemset, kernel, shiftSymbol);
      var shiftset := AppendStates(nshifts, S);
      reductions := reductions + [rules];
      shifts := shifts + [shiftset];
    }
  }

  /** The targets found for the symbols so far, every new state among them. */
  ghost predicate Targets(g: Packed, states0: seq<Core>, states: seq<Core>, S: iset<nat>, symbols: seq<nat>,
                          shiftset: seq<nat>) {
    && |shiftset| == |symbols| && states0 <= states
    && (forall k :: 0 <= k < |symbols| ==> GotoOK(g, states, S, symbols[k], shiftset[k]))
    && (forall t :: |states0| <= t < |states| ==> t in shiftset)
    && (|states0| < |states| ==> Unused(g, states) < Unused(g, states0))
  }

  lemma TargetsStep(g: Packed, states0: seq<Core>, before: seq<Core>, states: seq<Core>, S: iset<nat>,
                    symbols: seq<nat>, shiftset: seq<nat>, symbol: nat, t: nat)
    requires Targets(g, states0, before, S, symbols, shiftset) && before <= states && GotoOK(g, states, S, symbol, t)
    requires states == before || (|states| == |before| + 1 && t == |before| && Unused(g, states) < Unused(g, before))
    ensures Targets(g, states0, states, S, symbols + [symbol], shiftset + [t])
  {
    forall k | 0 <= k < |symbols|
      ensures GotoOK(g, states, S, symbols[k], shiftset[k])
    {
      GotoStays(g, before, states, S, symbols[k], shiftset[k]);
    }
  }

  lemma KernelBelowSyms(g: Packed, items: seq<nat>)
    requires g.WellFormed() && forall k :: k in items ==> 1 <= k < |g.ritem|
    ensures forall p :: 0 <= p < |items| ==> items[p] < |g.ritem| && g.ritem[items[p]] < g.nsyms
  {
    forall p | 0 <= p < |items|
      ensures items[p] < |g.ritem| && g.ritem[items[p]] < g.nsyms
    {
      assert items[p] in items;
      ItemBelowSyms(g, items[p]);
    }
  }

  lemma GotoStays(g: Packed, states: seq<Core>, states': seq<Core>, S: iset<nat>, X: nat, t: nat)
    requires states <= states' && GotoOK(g, states, S, X, t)
    ensures GotoOK(g, states', S, X, t)
  {
    assert states'[t] == states[t];
  }

  /** Sorting keeps the symbols and, as they are distinct, makes them strictly ascending. */
  lemma SortedSymbols(g: Packed, symbols: seq<nat>, sorted: seq<nat>, kernel: seq<seq<nat>>)
    requires |kernel| == g.nsyms && SymbolsOf(g, symbols, kernel)
    requires Sorted(sorted) && multiset(sorted) == multiset(symbols)
    ensures Ascending(sorted) && SymbolsOf(g, sorted, kernel)
  {
    forall X: nat
      ensures X in sorted <==> X in symbols
    {
      assert X in sorted <==> X in multiset(sorted);
      assert X in symbols <==> X in multiset(symbols);
    }
    DistinctByCount(symbols, sorted);
  }

  lemma DistinctByCount(symbols: seq<nat>, sorted: seq<nat>)
    requires forall p, q :: 0 <= p < q < |symbols| ==> symbols[p] != symbols[q]
    requires multiset(sorted) == multiset(symbols)
    ensures forall p, q :: 0 <= p < q < |sorted| ==> sorted[p] != sorted[q]
  {
    forall p, q | 0 <= p < q < |sorted|
      ensures sorted[p] != sorted[q]
    {
      if sorted[p] == sorted[q] {
        CountTwice(sorted, p, q);
        CountOnce(symbols, sorted[p]);
      }
    }
  }

  lemma CountTwice(s: seq<nat>, p: nat, q: nat)
    requires p < q < |s| && s[p] == s[q]
    ensures multiset(s)[s[p]] >= 2
  {
    assert s == s[..p] + [s[p]] + s[p + 1..q] + [s[q]] + s[q + 1..];
  }

  lemma CountOnce(s: seq<nat>, x: nat)
    requires forall p, q :: 0 <= p < q < |s| ==> s[p] != s[q]
    ensures multiset(s)[x] <= 1
  {
    if p: nat :| p < |s| && s[p] == x {
      assert s == s[..p] + [x] + s[p + 1..];
      assert x !in s[..p] && x !in s[p + 1..];
      assert x !in multiset(s[..p]) && x !in multiset(s[p + 1..]);
    } else {
      assert x !in multiset(s);
    }
  }

  lemma BufferIsKernel(g: Packed, S: iset<nat>, X: nat, items: seq<nat>)
    requires items != [] && Lists(items, Advance(g, S, X)) && 0 < X < g.nsyms
    requires g.WellFormed() && forall i :: i in S ==> 1 <= i < |g.ritem| && g.ritem[i] < g.nsyms
    ensures KernelOK(g, Core(X, items))
  {
    forall j | j in items
      ensures 2 <= j < |g.ritem| && g.ritem[j - 1] == X
    {
      assert MovedItem(g, S, X, j);
      var r := ItemHasRule(g, j - 1);
      ItemAt(g, j - 1, r);
      assert g.RuleShape(r);
    }
  }

  lemma RowComplete(g: Packed, states: seq<Core>, S: iset<nat>, symbols: seq<nat>, row: seq<nat>, kernel: seq<seq<nat>>)
    requires |row| == |symbols| && Ascending(symbols) && |kernel| == g.nsyms && SymbolsOf(g, symbols, kernel)
    requires forall k :: 0 <= k < |row| ==> GotoOK(g, states, S, symbols[k], row[k])
    requires forall X: nat :: 0 < X < g.nsyms ==> Lists(kernel[X], Advance(g, S, X))
    requires forall i :: i in S ==> 1 <= i < |g.ritem| && g.ritem[i] < g.nsyms
    ensures ShiftsOK(g, states, S, row)
  {
    forall k | 0 <= k < |row|
      ensures states[row[k]].accessing == symbols[k] > 0
    {
      assert symbols[k] in symbols;
    }
    forall X: nat | X > 0 && HasSymbol(g, S, X)
      ensures exists k :: 0 <= k < |row| && states[row[k]].accessing == X
    {
      var i: nat :| i in S && i < |g.ritem| && g.ritem[i] == X;
      assert MovedItem(g, S, X, i + 1);
      assert i + 1 in kernel[X];
      assert X in symbols;
      var k :| 0 <= k < |symbols| && symbols[k] == X;
      assert states[row[k]].accessing == X;
    }
  }

  lemma SameAccess(g: Packed, c: Core, d: Core)
    requires KernelOK(g, c) && KernelOK(g, d) && c.items == d.items
    ensures c == d
  {
    assert c.items[0] in c.items;
  }

  lemma NewIsDistinct(g: Packed, states: seq<Core>, chains: seq<seq<nat>>, c: Core)
    requires g.WellFormed() && StatesOK(g, states) && ChainsOK(states, chains) && KernelOK(g, c)
    requires |chains| == |g.ritem| && c.items[0] < |chains|
    requires forall k :: 0 <= k < |chains[c.items[0]]| ==>
               chains[c.items[0]][k] < |states| && states[chains[c.items[0]][k]].items != c.items
    ensures StatesOK(g, states + [c])
  {
    assert c.items[0] in c.items;
    forall t: nat | t < |states|
      ensures states[t].items != c.items
    {
      var key := c.items[0];
      assert t in chains[key] <==> HasKey(states, t, key);
    }
  }

  lemma ChainsAppend(states: seq<Core>, chains: seq<seq<nat>>, c: Core)
    requires |states| > 0 && ChainsOK(states, chains) && c.items != [] && c.items[0] < |chains|
    ensures ChainsOK(states + [c], chains[c.items[0] := chains[c.items[0]] + [|states|]])
  {
    var k := c.items[0];
    var chains' := chains[k := chains[k] + [|states|]];
    var states' := states + [c];
    forall key: nat, t: nat | key < |chains'|
      ensures t in chains'[key] <==> HasKey(states', t, key)
    {
      assert t < |states| ==> states'[t] == states[t];
      assert t in chains[key] <==> HasKey(states, t, key);
    }
  }

  ghost predicate RealItem(g: Packed, i: nat) {
    1 <= i < |g.ritem|
  }

  lemma ItemBelowSyms(g: Packed, i: nat)
    requires g.WellFormed() && 1 <= i < |g.ritem|
    ensures g.ritem[i] < g.nsyms
  {
    var r := ItemHasRule(g, i);
    ItemAt(g, i, r);
  }

  /** Items of a state's closure are items of rules. */
  lemma ClosureItems(g: Packed, kernel: seq<nat>)
    requires g.WellFormed() && forall k :: k in kernel ==> 1 <= k < |g.ritem|
    ensures forall i :: i in ClosureOf(g, kernel) ==> 1 <= i < |g.ritem| && g.ritem[i] < g.nsyms
  {
    var S := iset i: nat | RealItem(g, i);
    forall i: nat, j: nat | i in S && ItemRel(g)(i, j)
      ensures j in S
    {
      var r: nat :| 2 <= r < |g.rlhs| && g.rrhs[r] == j;
      RrhsAscends(g, 2, r);
      assert g.RuleShape(r);
    }
    ClosureIsLeast(g, kernel, S);
    forall i | i in ClosureOf(g, kernel)
      ensures 1 <= i < |g.ritem| && g.ritem[i] < g.nsyms
    {
      assert i in S;
      ItemBelowSyms(g, i);
    }
  }

  lemma StateItems(g: Packed, states: seq<Core>, q: nat)
    requires g.WellFormed() && StatesOK(g, states) && q < |states|
    ensures Ascending(states[q].items) && forall k :: k in states[q].items ==> 1 <= k < |g.ritem|
  {
    if q > 0 {
      assert KernelOK(g, states[q]);
    }
  }

  /** generate_states: closes the states one by one, in list order, while kernels add new ones. */
  method GenerateStates(g: Packed, derives: array<seq<nat>>) returns (A: Automaton)
    requires g.WellFormed() && DerivesLists(g, derives[..])
    ensures Canonical(g, A)
  {
    var b := new Builder(g, derives);
    var thisState := 0;
    while thisState < |b.states|
      invariant fresh(b) && fresh(b.stateSet) && fresh(b.kernel) && fresh(b.shiftSymbol)
      invariant fresh(b.sets) && fresh(b.sets.ruleset)
      invariant b.Valid() && b.g == g && |b.shifts| == |b.reductions| == thisState <= |b.states|
      invariant forall q: nat :: q < thisState ==> RowsOK(g, b.states, b.shifts, b.reductions, q)
      invariant forall t: nat :: 0 < t < |b.states| ==> EnteredEarlier(b.shifts, t)
      decreases Unused(g, b.states), |b.states| - thisState
    {
      ghost var states := b.states;
      ghost var shifts := b.shifts;
      ghost var reductions := b.reductions;
      ghost var unused := Unused(g, states);
      b.CloseState(thisState);
      forall q: nat | q < thisState
        ensures RowsOK(g, b.states, b.shifts, b.reductions, q)
      {
        assert RowsOK(g, states, shifts, reductions, q);
        RowsStay(g, states, b.states, b.shifts, b.reductions, q);
      }
      forall t: nat | 0 < t < |b.states|
        ensures EnteredEarlier(b.shifts, t)
      {
        if t < |states| {
          assert EnteredEarlier(shifts, t);
        } else {
          assert t in b.shifts[thisState];
        }
      }
      thisState := thisState + 1;
    }
    A := Automaton(b.states, b.shifts, b.reductions);
  }
}

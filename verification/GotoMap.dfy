/** lalr.c, set_goto_map and map_goto: the nonterminal transitions numbered by symbol and, within
    a symbol, by source state, and the binary search that recovers a number. */
module GotoMap {
  import opened Grammar
  import opened LR0
  import opened Paths
  import opened Buckets

  /** goto_map, from_state and to_state, once filled. */
  datatype Gotos = Gotos(map_: seq<nat>, from: seq<nat>, to: seq<nat>)

  /** The transitions over nonterminals of row p from index k on, last first. */
  ghost function RowGotos(g: Packed, A: Automaton, p: nat, k: nat): seq<(nat, (nat, nat))>
    requires p < |A.shifts| && forall q :: q in A.shifts[p] ==> q < |A.states|
    decreases |A.shifts[p]| - k
  {
    if k >= |A.shifts[p]| then []
    else
      var q := A.shifts[p][k];
      assert q in A.shifts[p];
      var X := A.states[q].accessing;
      RowGotos(g, A, p, k + 1) + (if g.IsVar(X) then [(X, (p, q))] else [])
  }

  ghost predicate RowsInRange(A: Automaton) {
    forall p, q :: 0 <= p < |A.shifts| && q in A.shifts[p] ==> q < |A.states|
  }

  /** The transitions of the first n states, in the order both passes meet them. */
  ghost function AllGotos(g: Packed, A: Automaton, n: nat): seq<(nat, (nat, nat))>
    requires n <= |A.shifts| && RowsInRange(A)
  {
    if n == 0 then [] else AllGotos(g, A, n - 1) + RowGotos(g, A, n - 1, 0)
  }

  lemma CanonicalInRange(g: Packed, A: Automaton)
    requires Canonical(g, A)
    ensures RowsInRange(A)
  {
    forall p, q | 0 <= p < |A.shifts| && q in A.shifts[p]
      ensures q < |A.states|
    {
      assert RowsOK(g, A.states, A.shifts, A.reductions, p);
    }
  }

  /** Entry e of a stream is a transition over a nonterminal out of a state below n. */
  ghost predicate IsGoto(g: Packed, A: Automaton, e: (nat, (nat, nat)), n: nat) {
    e.1.0 < n && g.IsVar(e.0) && e.0 < g.nsyms && Goto(A, e.1.0, e.0, e.1.1)
  }

  lemma {:induction false} RowGotosAre(g: Packed, A: Automaton, p: nat, k: nat)
    requires Canonical(g, A) && RowsInRange(A) && p < |A.shifts|
    ensures forall e :: e in RowGotos(g, A, p, k) ==> IsGoto(g, A, e, p + 1) && e.1.0 == p
    decreases |A.shifts[p]| - k
  {
    if k < |A.shifts[p]| {
      RowGotosAre(g, A, p, k + 1);
      var q := A.shifts[p][k];
      assert q in A.shifts[p];
      GotoItems(g, A, p, A.states[q].accessing, q);
    }
  }

  lemma {:induction false} RowGotosHas(g: Packed, A: Automaton, p: nat, k: nat, m: nat)
    requires RowsInRange(A) && p < |A.shifts| && k <= m < |A.shifts[p]|
    requires A.shifts[p][m] < |A.states| && g.IsVar(A.states[A.shifts[p][m]].accessing)
    ensures (A.states[A.shifts[p][m]].accessing, (p, A.shifts[p][m])) in RowGotos(g, A, p, k)
    decreases m - k
  {
    if k < m {
      RowGotosHas(g, A, p, k + 1, m);
    }
  }

  lemma {:induction false} AllGotosAre(g: Packed, A: Automaton, n: nat)
    requires Canonical(g, A) && RowsInRange(A) && n <= |A.shifts|
    ensures forall e :: e in AllGotos(g, A, n) ==> IsGoto(g, A, e, n)
  {
    if n > 0 {
      AllGotosAre(g, A, n - 1);
      RowGotosAre(g, A, n - 1, 0);
    }
  }

  lemma {:induction false} AllGotosHas(g: Packed, A: Automaton, n: nat, p: nat, X: nat, q: nat)
    requires RowsInRange(A) && p < n <= |A.shifts| && Goto(A, p, X, q) && g.IsVar(X)
    ensures (X, (p, q)) in AllGotos(g, A, n)
  {
    if p < n - 1 {
      AllGotosHas(g, A, n - 1, p, X, q);
    } else {
      var m :| 0 <= m < |A.shifts[p]| && A.shifts[p][m] == q;
      RowGotosHas(g, A, p, 0, m);
    }
  }

  ghost predicate FromAscending(s: seq<(nat, nat)>, n: nat) {
    && (forall k :: 0 <= k < |s| ==> s[k].0 < n)
    && forall k, m :: 0 <= k < m < |s| ==> s[k].0 < s[m].0
  }

  /** Within one symbol the source states ascend: a row has at most one transition per symbol. */
  lemma {:induction false} RowBucketShort(g: Packed, A: Automaton, p: nat, k: nat, X: nat)
    requires Canonical(g, A) && RowsInRange(A) && p < |A.shifts|
    ensures |Bucket(RowGotos(g, A, p, k), X)| <= 1
    ensures Bucket(RowGotos(g, A, p, k), X) != [] ==>
              exists m :: k <= m < |A.shifts[p]| && A.shifts[p][m] < |A.states| &&
                  A.states[A.shifts[p][m]].accessing == X
    decreases |A.shifts[p]| - k
  {
    if k < |A.shifts[p]| {
      RowBucketShort(g, A, p, k + 1, X);
      assert RowsOK(g, A.states, A.shifts, A.reductions, p);
      var q := A.shifts[p][k];
      if g.IsVar(A.states[q].accessing) {
        BucketSnoc(RowGotos(g, A, p, k + 1), (A.states[q].accessing, (p, q)), X);
      } else {
        assert RowGotos(g, A, p, k) == RowGotos(g, A, p, k + 1);
      }
    }
  }

  lemma {:induction false} BucketAscends(g: Packed, A: Automaton, n: nat, X: nat)
    requires Canonical(g, A) && RowsInRange(A) && n <= |A.shifts|
    ensures FromAscending(Bucket(AllGotos(g, A, n), X), n)
  {
    if n > 0 {
      BucketAscends(g, A, n - 1, X);
      BucketConcat(AllGotos(g, A, n - 1), RowGotos(g, A, n - 1, 0), X);
      var b := Bucket(RowGotos(g, A, n - 1, 0), X);
      RowBucketFrom(g, A, n - 1, X);
      AscendingPlus(Bucket(AllGotos(g, A, n - 1), X), b, n - 1);
    }
  }

  lemma RowBucketFrom(g: Packed, A: Automaton, p: nat, X: nat)
    requires Canonical(g, A) && RowsInRange(A) && p < |A.shifts|
    ensures var b := Bucket(RowGotos(g, A, p, 0), X); |b| <= 1 && (b != [] ==> b[0].0 == p)
  {
    RowBucketShort(g, A, p, 0, X);
    RowGotosAre(g, A, p, 0);
    var b := Bucket(RowGotos(g, A, p, 0), X);
    if b != [] {
      InBucket(RowGotos(g, A, p, 0), X, b[0]);
    }
  }

  lemma AscendingPlus(s: seq<(nat, nat)>, b: seq<(nat, nat)>, n: nat)
    requires FromAscending(s, n) && |b| <= 1 && (b != [] ==> b[0].0 == n)
    ensures FromAscending(s + b, n + 1)
  {}

  /** The numbers of symbol X. */
  ghost predicate InBlock(gs: Gotos, X: nat, n: nat) {
    X + 1 < |gs.map_| && gs.map_[X] <= n < gs.map_[X + 1]
  }

  /** Number n of symbol X stands for the transition p -> q. */
  ghost predicate NumberOf(gs: Gotos, p: nat, X: nat, q: nat, n: nat) {
    InBlock(gs, X, n) && n < |gs.from| && n < |gs.to| && gs.from[n] == p && gs.to[n] == q
  }

  ghost predicate Numbered(gs: Gotos, p: nat, X: nat, q: nat) {
    exists n: nat :: NumberOf(gs, p, X, q, n)
  }

  /** The block of X holds its transitions, by ascending source state. */
  ghost predicate BlockOK(A: Automaton, gs: Gotos, X: nat) {
    && (forall n: nat :: InBlock(gs, X, n) ==> n < |gs.from| && n < |gs.to| && Goto(A, gs.from[n], X, gs.to[n]))
    && (forall n: nat, m: nat :: InBlock(gs, X, n) && InBlock(gs, X, m) && n < m && m < |gs.from| ==>
        gs.from[n] < gs.from[m])
    && (forall p: nat, q: nat :: Goto(A, p, X, q) ==> Numbered(gs, p, X, q))
  }

  /** The finished tables: the blocks of the nonterminals split the numbers below ngotos, and
      each holds exactly the transitions of its symbol. */
  ghost predicate GotosOK(g: Packed, A: Automaton, gs: Gotos) {
    && |gs.map_| == g.nsyms + 1 && |gs.from| == |gs.to| == gs.map_[g.nsyms]
    && g.ntokens <= g.nsyms && gs.map_[g.ntokens] == 0
    && (forall X, Y :: g.ntokens <= X <= Y <= g.nsyms ==> gs.map_[X] <= gs.map_[Y])
    && (forall X: nat :: g.ntokens <= X < g.nsyms ==> BlockOK(A, gs, X))
  }

  /** Every number below the start of a block is in an earlier one. */
  lemma {:induction false} BlockBelow(g: Packed, A: Automaton, gs: Gotos, n: nat, hi: nat) returns (X: nat)
    requires GotosOK(g, A, gs) && g.ntokens <= hi <= g.nsyms && n < gs.map_[hi]
    ensures g.ntokens <= X < g.nsyms && InBlock(gs, X, n)
    decreases hi
  {
    if gs.map_[hi - 1] <= n {
      X := hi - 1;
    } else {
      X := BlockBelow(g, A, gs, n, hi - 1);
    }
  }

  /** What the second pass has stored once it has met the entries of s out of all. */
  ghost predicate Stored(g: Packed, map_: seq<nat>, from: seq<nat>, to: seq<nat>, s: seq<(nat, (nat, nat))>)
    requires |map_| == g.nsyms + 1 && |from| == |to|
  {
    forall X: nat :: g.ntokens <= X < g.nsyms ==> StoredFrom(from, to, map_[X], Bucket(s, X))
  }

  /** The pairs b stand from place k on. */
  ghost predicate StoredFrom(from: seq<nat>, to: seq<nat>, k: nat, b: seq<(nat, nat)>)
    requires |from| == |to|
  {
    k + |b| <= |from| && forall m :: 0 <= m < |b| ==> (from[k + m], to[k + m]) == b[m]
  }

  /** Block starts are running totals of the bucket sizes. */
  ghost predicate BlockStarts(g: Packed, map_: seq<nat>, all: seq<(nat, (nat, nat))>) {
    && |map_| == g.nsyms + 1
    && forall X: nat :: g.ntokens <= X <= g.nsyms ==> map_[X] == Total(all, g.ntokens, X)
  }

  lemma StoredIsOK(g: Packed, A: Automaton, gs: Gotos)
    requires Canonical(g, A) && RowsInRange(A) && g.ntokens <= g.nsyms
    requires |gs.map_| == g.nsyms + 1 && |gs.from| == |gs.to| == gs.map_[g.nsyms]
    requires BlockStarts(g, gs.map_, AllGotos(g, A, |A.shifts|))
    requires Stored(g, gs.map_, gs.from, gs.to, AllGotos(g, A, |A.shifts|))
    ensures GotosOK(g, A, gs)
  {
    var all := AllGotos(g, A, |A.shifts|);
    forall X, Y | g.ntokens <= X <= Y <= g.nsyms
      ensures gs.map_[X] <= gs.map_[Y]
    {
      TotalSplits(all, g.ntokens, X, Y);
    }
    forall X: nat | g.ntokens <= X < g.nsyms
      ensures BlockOK(A, gs, X)
    {
      assert gs.map_[X + 1] == gs.map_[X] + |Bucket(all, X)|;
      BlockIsOK(g, A, gs, X);
    }
  }

  lemma BlockIsOK(g: Packed, A: Automaton, gs: Gotos, X: nat)
    requires Canonical(g, A) && RowsInRange(A) && g.ntokens <= X < g.nsyms
    requires |gs.map_| == g.nsyms + 1 && |gs.from| == |gs.to|
    requires Stored(g, gs.map_, gs.from, gs.to, AllGotos(g, A, |A.shifts|))
    requires gs.map_[X + 1] == gs.map_[X] + |Bucket(AllGotos(g, A, |A.shifts|), X)|
    ensures BlockOK(A, gs, X)
  {
    var N := |A.shifts|;
    var all := AllGotos(g, A, N);
    var b := Bucket(all, X);
    AllGotosAre(g, A, N);
    BucketAscends(g, A, N, X);
    forall n: nat | InBlock(gs, X, n)
      ensures n < |gs.from| && (gs.from[n], gs.to[n]) == b[n - gs.map_[X]] && Goto(A, gs.from[n], X, gs.to[n])
    {
      var m := n - gs.map_[X];
      assert StoredFrom(gs.from, gs.to, gs.map_[X], b);
      InBucket(all, X, b[m]);
      assert IsGoto(g, A, (X, b[m]), N);
    }
    forall p: nat, q: nat | Goto(A, p, X, q)
      ensures Numbered(gs, p, X, q)
    {
      AllGotosHas(g, A, N, p, X, q);
      InBucket(all, X, (p, q));
      var m: nat :| m < |b| && b[m] == (p, q);
      assert NumberOf(gs, p, X, q, gs.map_[X] + m);
    }
  }

  /** The counts after the transitions of s. */
  ghost predicate Counts(g: Packed, gotoMap: seq<nat>, ngotos: nat, s: seq<(nat, (nat, nat))>) {
    && |gotoMap| == g.nsyms + 1 && ngotos == |s|
    && forall X: nat :: g.ntokens <= X < g.nsyms ==> gotoMap[X] == |Bucket(s, X)|
  }

  lemma CountOne(g: Packed, gotoMap: seq<nat>, ngotos: nat, s: seq<(nat, (nat, nat))>, e: (nat, (nat, nat)))
    requires Counts(g, gotoMap, ngotos, s) && g.ntokens <= e.0 < g.nsyms
    ensures Counts(g, gotoMap[e.0 := gotoMap[e.0] + 1], ngotos + 1, s + [e])
  {
    forall X: nat | g.ntokens <= X < g.nsyms
      ensures |Bucket(s + [e], X)| == |Bucket(s, X)| + (if X == e.0 then 1 else 0)
    {
      BucketSnoc(s, e, X);
    }
  }

  /** One row of the first pass, from its end down to the tokens. */
  method CountRow(g: Packed, A: Automaton, sp: nat, gotoMap: array<nat>, ngotos0: nat) returns (ngotos: nat)
    requires g.WellFormed() && Canonical(g, A) && RowsInRange(A) && sp < |A.shifts|
    requires Counts(g, gotoMap[..], ngotos0, AllGotos(g, A, sp))
    modifies gotoMap
    ensures Counts(g, gotoMap[..], ngotos, AllGotos(g, A, sp + 1))
  {
    ngotos := ngotos0;
    var row := A.shifts[sp];
    ghost var before := AllGotos(g, A, sp);
    var i: nat := |row|;
    assert before + RowGotos(g, A, sp, |row|) == before;
    assert AllGotos(g, A, sp + 1) == before + RowGotos(g, A, sp, 0);
    hide Counts, Bucket, AllGotos, RowGotos;
    assert |gotoMap[..]| == gotoMap.Length;
    while i > 0
      invariant i <= |row| && gotoMap.Length == g.nsyms + 1
      invariant Counts(g, gotoMap[..], ngotos, before + RowGotos(g, A, sp, i))
    {
      var symbol := EntrySymbol(g, A, sp, i - 1);
      if symbol < g.ntokens {
        TokensBelow(g, A, sp, i);
        break;
      }
      StreamStep(g, A, before, sp, i - 1);
      CountOne(g, gotoMap[..], ngotos, before + RowGotos(g, A, sp, i), (symbol, (sp, row[i - 1])));
      ngotos := ngotos + 1;
      gotoMap[symbol] := gotoMap[symbol] + 1;
      i := i - 1;
    }
  }

  /** The first pass: goto_map[X] counts the transitions over X. */
  method CountGotos(g: Packed, A: Automaton, gotoMap: array<nat>) returns (ngotos: nat)
    requires g.WellFormed() && Canonical(g, A) && RowsInRange(A) && gotoMap.Length == g.nsyms + 1
    requires forall X :: 0 <= X <= g.nsyms ==> gotoMap[X] == 0
    modifies gotoMap
    ensures ngotos == |AllGotos(g, A, |A.shifts|)|
    ensures forall X: nat :: g.ntokens <= X < g.nsyms ==> gotoMap[X] == |Bucket(AllGotos(g, A, |A.shifts|), X)|
  {
    ngotos := 0;
    var sp := 0;
    while sp < |A.shifts|
      invariant sp <= |A.shifts| && Counts(g, gotoMap[..], ngotos, AllGotos(g, A, sp))
    {
      ngotos := CountRow(g, A, sp, gotoMap, ngotos);
      sp := sp + 1;
    }
  }

  /** accessing_symbol[sp->shift[k]]. */
  method EntrySymbol(g: Packed, A: Automaton, p: nat, k: nat) returns (symbol: nat)
    requires g.WellFormed() && Canonical(g, A) && p < |A.shifts| && k < |A.shifts[p]|
    ensures A.shifts[p][k] < |A.states| && symbol == A.states[A.shifts[p][k]].accessing < g.nsyms
    ensures Goto(A, p, symbol, A.shifts[p][k])
  {
    assert RowsOK(g, A.states, A.shifts, A.reductions, p);
    symbol := A.states[A.shifts[p][k]].accessing;
    GotoItems(g, A, p, symbol, A.shifts[p][k]);
  }

  /** One more entry of the row: every bucket grows as its key says. */
  lemma StreamStep(g: Packed, A: Automaton, before: seq<(nat, (nat, nat))>, p: nat, k: nat)
    requires RowsInRange(A) && p < |A.shifts| && k < |A.shifts[p]| && A.shifts[p][k] < |A.states|
    requires g.IsVar(A.states[A.shifts[p][k]].accessing)
    ensures var e := (A.states[A.shifts[p][k]].accessing, (p, A.shifts[p][k]));
            var s := before + RowGotos(g, A, p, k + 1);
            before + RowGotos(g, A, p, k) == s + [e]
            && forall X: nat :: Bucket(s + [e], X) == Bucket(s, X) + (if e.0 == X then [e.1] else [])
  {
    var e := (A.states[A.shifts[p][k]].accessing, (p, A.shifts[p][k]));
    var s := before + RowGotos(g, A, p, k + 1);
    assert RowGotos(g, A, p, k) == RowGotos(g, A, p, k + 1) + [e];
    assert before + RowGotos(g, A, p, k) == s + [e];
    forall X: nat
      ensures Bucket(s + [e], X) == Bucket(s, X) + (if e.0 == X then [e.1] else [])
    {
      BucketSnoc(s, e, X);
    }
  }

  /** Rows are sorted by symbol, so below a token there are only tokens: the break is safe. */
  lemma {:induction false} TokensBelow(g: Packed, A: Automaton, p: nat, i: nat)
    requires Canonical(g, A) && RowsInRange(A) && p < |A.shifts| && 0 < i <= |A.shifts[p]|
    requires A.shifts[p][i - 1] < |A.states| && A.states[A.shifts[p][i - 1]].accessing < g.ntokens
    ensures RowGotos(g, A, p, 0) == RowGotos(g, A, p, i)
    ensures AllGotos(g, A, p + 1) == AllGotos(g, A, p) + RowGotos(g, A, p, i)
    decreases i
  {
    assert RowsOK(g, A.states, A.shifts, A.reductions, p);
    assert RowGotos(g, A, p, i - 1) == RowGotos(g, A, p, i);
    if i > 1 {
      TokensBelow(g, A, p, i - 1);
    }
  }

  lemma TotalStep(all: seq<(nat, (nat, nat))>, lo: nat, i: nat)
    requires lo <= i
    ensures Total(all, lo, i + 1) == Total(all, lo, i) + |Bucket(all, i)| && Total(all, lo, lo) == 0
  {}

  /** The running totals of the counts. */
  method RunningTotals(lo: nat, hi: nat, gotoMap: array<nat>, tempMap: array<nat>, ghost all: seq<(nat, (nat, nat))>)
    requires lo <= hi < gotoMap.Length == tempMap.Length && gotoMap != tempMap
    requires forall X: nat :: lo <= X < hi ==> gotoMap[X] == |Bucket(all, X)|
    modifies tempMap
    ensures forall X: nat :: lo <= X < hi ==> tempMap[X] == Total(all, lo, X)
  {
    TotalStep(all, lo, lo);
    hide Total, Bucket;
    var k := 0;
    var i := lo;
    while i < hi
      invariant lo <= i <= hi && k == Total(all, lo, i)
      invariant forall X: nat :: lo <= X < i ==> tempMap[X] == Total(all, lo, X)
    {
      TotalStep(all, lo, i);
      tempMap[i] := k;
      k := k + gotoMap[i];
      i := i + 1;
    }
  }

  lemma TotalsAreStarts(g: Packed, map_: seq<nat>, all: seq<(nat, (nat, nat))>)
    requires |map_| == g.nsyms + 1 && g.ntokens <= g.nsyms
    requires forall k :: 0 <= k < |all| ==> g.ntokens <= all[k].0 < g.nsyms
    requires forall X: nat :: g.ntokens <= X < g.nsyms ==> map_[X] == Total(all, g.ntokens, X)
    requires map_[g.nsyms] == |all|
    ensures BlockStarts(g, map_, all)
  {
    TotalIsAll(all, g.ntokens, g.nsyms);
  }

  /** Counts turned into block starts, and a copy of them to advance while filling. */
  method PrefixSums(g: Packed, gotoMap: array<nat>, ngotos: nat, ghost all: seq<(nat, (nat, nat))>)
    returns (tempMap: array<nat>)
    requires g.WellFormed() && gotoMap.Length == g.nsyms + 1 && ngotos == |all|
    requires forall k :: 0 <= k < |all| ==> g.ntokens <= all[k].0 < g.nsyms
    requires forall X: nat :: g.ntokens <= X < g.nsyms ==> gotoMap[X] == |Bucket(all, X)|
    modifies gotoMap
    ensures fresh(tempMap) && tempMap.Length == g.nsyms + 1
    ensures forall X: nat :: g.ntokens <= X <= g.nsyms ==> tempMap[X] == gotoMap[X]
    ensures BlockStarts(g, gotoMap[..], all) && gotoMap[g.nsyms] == ngotos
  {
    assert g.ntokens <= g.nsyms;
    hide Packed.WellFormed, Total, Bucket, BlockStarts;
    tempMap := new nat[g.nsyms + 1](_ => 0);
    RunningTotals(g.ntokens, g.nsyms, gotoMap, tempMap, all);
    CopyBack(g.ntokens, g.nsyms, gotoMap, tempMap);
    gotoMap[g.nsyms] := ngotos;
    tempMap[g.nsyms] := ngotos;
    TotalsAreStarts(g, gotoMap[..], all);
  }

  method CopyBack(lo: nat, hi: nat, gotoMap: array<nat>, tempMap: array<nat>)
    requires lo <= hi < gotoMap.Length == tempMap.Length && gotoMap != tempMap
    modifies gotoMap
    ensures forall X: nat :: lo <= X < hi ==> gotoMap[X] == tempMap[X]
  {
    var i := lo;
    while i < hi
      invariant lo <= i <= hi && forall X: nat :: lo <= X < i ==> gotoMap[X] == tempMap[X]
    {
      gotoMap[i] := tempMap[i];
      i := i + 1;
    }
  }

  /** Cursor tempMap[X] stands right after what the block of X has received so far. */
  ghost predicate Cursors(g: Packed, map_: seq<nat>, temp: seq<nat>, s: seq<(nat, (nat, nat))>)
    requires |map_| == |temp| == g.nsyms + 1
  {
    forall X: nat :: g.ntokens <= X < g.nsyms ==> temp[X] == map_[X] + |Bucket(s, X)|
  }

  lemma NextPlace(g: Packed, map_: seq<nat>, all: seq<(nat, (nat, nat))>, m: nat)
    requires BlockStarts(g, map_, all) && |all| == map_[g.nsyms] && m < |all|
    requires forall k :: 0 <= k < |all| ==> g.ntokens <= all[k].0 < g.nsyms
    ensures var X := all[m].0; |Bucket(all[..m], X)| < |Bucket(all, X)| && map_[X] + |Bucket(all, X)| <= |all|
  {
    hide Bucket, Total;
    var X := all[m].0;
    BucketRoom(all, m);
    TotalStep(all, g.ntokens, X);
    TotalSplits(all, g.ntokens, X + 1, g.nsyms);
  }

  /** Storing pair e behind block b, or inside another block's stretch. */
  lemma StoredPair(from: seq<nat>, to: seq<nat>, start: nat, b: seq<(nat, nat)>, k: nat, e: (nat, nat))
    requires |from| == |to| && StoredFrom(from, to, start, b) && k < |from|
    ensures k == start + |b| ==> StoredFrom(from[k := e.0], to[k := e.1], start, b + [e])
    ensures k < start || k >= start + |b| ==> StoredFrom(from[k := e.0], to[k := e.1], start, b)
  {}

  /** Storing entry m of the stream lands in a free place of its own block. */
  lemma StoreStep(g: Packed, map_: seq<nat>, from: seq<nat>, to: seq<nat>, all: seq<(nat, (nat, nat))>, m: nat)
    requires BlockStarts(g, map_, all) && |from| == |to| == |all| == map_[g.nsyms] && m < |all|
    requires forall k :: 0 <= k < |all| ==> g.ntokens <= all[k].0 < g.nsyms
    requires Stored(g, map_, from, to, all[..m])
    ensures var X := all[m].0; var k := map_[X] + |Bucket(all[..m], X)|;
            k < |from| && Stored(g, map_, from[k := all[m].1.0], to[k := all[m].1.1], all[..m + 1])
  {
    var X := all[m].0;
    var k := map_[X] + |Bucket(all[..m], X)|;
    NextPlace(g, map_, all, m);
    assert all[..m + 1] == all[..m] + [all[m]];
    forall Y: nat | g.ntokens <= Y < g.nsyms
      ensures StoredFrom(from[k := all[m].1.0], to[k := all[m].1.1], map_[Y], Bucket(all[..m + 1], Y))
    {
      assert StoredFrom(from, to, map_[Y], Bucket(all[..m], Y));
      hide Bucket, Total, StoredFrom, BlockStarts;
      BucketSnoc(all[..m], all[m], Y);
      OtherBlock(g, map_, all, m, X, Y);
      StoredPair(from, to, map_[Y], Bucket(all[..m], Y), k, all[m].1);
    }
  }

  /** Blocks of different symbols do not meet. */
  lemma OtherBlock(g: Packed, map_: seq<nat>, all: seq<(nat, (nat, nat))>, m: nat, X: nat, Y: nat)
    requires BlockStarts(g, map_, all) && m <= |all| && g.ntokens <= X < g.nsyms && g.ntokens <= Y < g.nsyms
    ensures |Bucket(all[..m], Y)| <= |Bucket(all, Y)|
    ensures X < Y ==> map_[X] + |Bucket(all, X)| <= map_[Y]
    ensures Y < X ==> map_[Y] + |Bucket(all, Y)| <= map_[X]
  {
    assert all == all[..m] + all[m..];
    BucketConcat(all[..m], all[m..], Y);
    if X < Y {
      TotalSplits(all, g.ntokens, X + 1, Y);
    } else if Y < X {
      TotalSplits(all, g.ntokens, Y + 1, X);
    }
  }

  lemma NothingStored(g: Packed, map_: seq<nat>, from: seq<nat>, to: seq<nat>, all: seq<(nat, (nat, nat))>)
    requires BlockStarts(g, map_, all) && |from| == |to| == map_[g.nsyms]
    ensures Stored(g, map_, from, to, []) && Cursors(g, map_, map_, [])
  {
    var none: seq<(nat, (nat, nat))> := [];
    assert forall X: nat :: Bucket(none, X) == [];
    forall X: nat | g.ntokens <= X < g.nsyms
      ensures map_[X] <= |from|
    {
      TotalSplits(all, g.ntokens, X, g.nsyms);
    }
  }

  /** The second pass: every transition goes to the next place of its symbol's block. */
  method FillGotos(g: Packed, A: Automaton, map_: array<nat>, temp: array<nat>, from: array<nat>, to: array<nat>)
    requires g.WellFormed() && Canonical(g, A) && RowsInRange(A) && map_.Length == temp.Length == g.nsyms + 1
    requires map_ != temp && from != to && temp != from && temp != to && map_ != from && map_ != to
    requires BlockStarts(g, map_[..], AllGotos(g, A, |A.shifts|))
    requires forall X: nat :: g.ntokens <= X < g.nsyms ==> temp[X] == map_[X]
    requires from.Length == to.Length == |AllGotos(g, A, |A.shifts|)| == map_[g.nsyms]
    modifies temp, from, to
    ensures Stored(g, map_[..], from[..], to[..], AllGotos(g, A, |A.shifts|))
  {
    ghost var all := AllGotos(g, A, |A.shifts|);
    ghost var starts := map_[..];
    NothingStored(g, starts, from[..], to[..], all);
    var sp := 0;
    while sp < |A.shifts|
      invariant sp <= |A.shifts| && map_[..] == starts
      invariant Cursors(g, starts, temp[..], AllGotos(g, A, sp)) &&
          Stored(g, starts, from[..], to[..], AllGotos(g, A, sp))
    {
      FillRow(g, A, sp, starts, temp, from, to);
      sp := sp + 1;
    }
  }

  lemma {:induction false} StreamPrefix(g: Packed, A: Automaton, n: nat, m: nat)
    requires RowsInRange(A) && n <= m <= |A.shifts|
    ensures AllGotos(g, A, n) <= AllGotos(g, A, m)
    decreases m
  {
    if n < m {
      StreamPrefix(g, A, n, m - 1);
    }
  }

  lemma {:induction false} RowPrefix(g: Packed, A: Automaton, p: nat, k: nat)
    requires RowsInRange(A) && p < |A.shifts| && k <= |A.shifts[p]|
    ensures RowGotos(g, A, p, k) <= RowGotos(g, A, p, 0)
    decreases k
  {
    if k > 0 {
      RowPrefix(g, A, p, k - 1);
    }
  }

  lemma KeysInRange(g: Packed, A: Automaton)
    requires Canonical(g, A) && RowsInRange(A)
    ensures forall k :: 0 <= k < |AllGotos(g, A, |A.shifts|)| ==> g.ntokens <= AllGotos(g, A, |A.shifts|)[k].0 < g.nsyms
  {
    var all := AllGotos(g, A, |A.shifts|);
    AllGotosAre(g, A, |A.shifts|);
    forall k | 0 <= k < |all|
      ensures g.ntokens <= all[k].0 < g.nsyms
    {
      assert IsGoto(g, A, all[k], |A.shifts|);
    }
  }

  /** k = temp_map[symbol]++, and the two stores at k. */
  method Place(temp: array<nat>, from: array<nat>, to: array<nat>, symbol: nat, state1: nat, state2: nat)
    requires from != to && temp != from && temp != to && from.Length == to.Length
    requires symbol < temp.Length && temp[symbol] < from.Length
    modifies temp, from, to
    ensures temp[..] == old(temp[..])[symbol := old(temp[symbol]) + 1]
    ensures from[..] == old(from[..])[old(temp[symbol]) := state1]
    ensures to[..] == old(to[..])[old(temp[symbol]) := state2]
  {
    var k := temp[symbol];
    temp[symbol] := temp[symbol] + 1;
    from[k] := state1;
    to[k] := state2;
  }

  /** What Place keeps: the cursors and the stored blocks, one stream entry further. */
  lemma EntryStored(g: Packed, A: Automaton, starts: seq<nat>, temp: seq<nat>, from: seq<nat>, to: seq<nat>, p: nat,
                    k: nat)
    requires Canonical(g, A) && RowsInRange(A) && p < |A.shifts| && k < |A.shifts[p]|
    requires A.shifts[p][k] < |A.states| && g.ntokens <= A.states[A.shifts[p][k]].accessing < g.nsyms
    requires BlockStarts(g, starts, AllGotos(g, A, |A.shifts|)) && |temp| == g.nsyms + 1
    requires |from| == |to| == |AllGotos(g, A, |A.shifts|)| == starts[g.nsyms]
    requires Cursors(g, starts, temp, AllGotos(g, A, p) + RowGotos(g, A, p, k + 1))
    requires Stored(g, starts, from, to, AllGotos(g, A, p) + RowGotos(g, A, p, k + 1))
    ensures var q := A.shifts[p][k]; var X := A.states[q].accessing; var s := AllGotos(g, A, p) + RowGotos(g, A, p, k);
            temp[X] < |from| && Cursors(g, starts, temp[X := temp[X] + 1], s)
            && Stored(g, starts, from[temp[X] := p], to[temp[X] := q], s)
  {
    hide Canonical, AllGotos, RowGotos, Bucket, Stored, BlockStarts;
    var all := AllGotos(g, A, |A.shifts|);
    var s := AllGotos(g, A, p) + RowGotos(g, A, p, k + 1);
    StreamPlace(g, A, p, k);
    StreamStep(g, A, AllGotos(g, A, p), p, k);
    KeysInRange(g, A);
    StoreStep(g, starts, from, to, all, |s|);
  }

  method FillRow(g: Packed, A: Automaton, sp: nat, ghost starts: seq<nat>, temp: array<nat>, from: array<nat>,
                 to: array<nat>)
    requires g.WellFormed() && Canonical(g, A) && RowsInRange(A) && |starts| == temp.Length == g.nsyms + 1
    requires from != to && temp != from && temp != to && sp < |A.shifts|
    requires BlockStarts(g, starts, AllGotos(g, A, |A.shifts|))
    requires from.Length == to.Length == |AllGotos(g, A, |A.shifts|)| == starts[g.nsyms]
    requires Cursors(g, starts, temp[..], AllGotos(g, A, sp)) && Stored(g, starts, from[..], to[..], AllGotos(g, A, sp))
    modifies temp, from, to
    ensures Cursors(g, starts, temp[..], AllGotos(g, A, sp + 1)) &&
        Stored(g, starts, from[..], to[..], AllGotos(g, A, sp + 1))
  {
    var row := A.shifts[sp];
    ghost var before := AllGotos(g, A, sp);
    var i: nat := |row|;
    assert before + RowGotos(g, A, sp, |row|) == before;
    while i > 0
      invariant i <= |row|
      invariant Cursors(g, starts, temp[..], before + RowGotos(g, A, sp, i))
      invariant Stored(g, starts, from[..], to[..], before + RowGotos(g, A, sp, i))
    {
      var state2 := row[i - 1];
      var symbol := EntrySymbol(g, A, sp, i - 1);
      if symbol < g.ntokens {
        TokensBelow(g, A, sp, i);
        assert AllGotos(g, A, sp + 1) == before + RowGotos(g, A, sp, i);
        break;
      }
      EntryStored(g, A, starts, temp[..], from[..], to[..], sp, i - 1);
      Place(temp, from, to, symbol, sp, state2);
      i := i - 1;
    }
    if i == 0 {
      assert AllGotos(g, A, sp + 1) == before + RowGotos(g, A, sp, 0);
    }
  }

  /** Where entry k of row p stands in the whole stream. */
  lemma StreamPlace(g: Packed, A: Automaton, p: nat, k: nat)
    requires RowsInRange(A) && p < |A.shifts| && k < |A.shifts[p]| && A.shifts[p][k] < |A.states|
    requires g.IsVar(A.states[A.shifts[p][k]].accessing)
    ensures var all := AllGotos(g, A, |A.shifts|);
            var s := AllGotos(g, A, p) + RowGotos(g, A, p, k + 1);
            |s| < |all| && s == all[..|s|] && all[|s|] == (A.states[A.shifts[p][k]].accessing, (p, A.shifts[p][k]))
            && all[..|s| + 1] == AllGotos(g, A, p) + RowGotos(g, A, p, k)
  {
    StreamPrefix(g, A, p + 1, |A.shifts|);
    RowPrefix(g, A, p, k);
    assert AllGotos(g, A, p) + RowGotos(g, A, p, k) <= AllGotos(g, A, p + 1);
  }

  /** set_goto_map: two passes over the shift rows, a counting sort by symbol. */
  method SetGotoMap(g: Packed, A: Automaton) returns (gs: Gotos)
    requires g.WellFormed() && Canonical(g, A)
    ensures GotosOK(g, A, gs)
  {
    CanonicalInRange(g, A);
    var gotoMap := new nat[g.nsyms + 1](_ => 0);
    var ngotos := CountGotos(g, A, gotoMap);
    KeysInRange(g, A);
    var tempMap := PrefixSums(g, gotoMap, ngotos, AllGotos(g, A, |A.shifts|));
    var fromState := new nat[ngotos](_ => 0);
    var toState := new nat[ngotos](_ => 0);
    FillGotos(g, A, gotoMap, tempMap, fromState, toState);
    gs := Gotos(gotoMap[..], fromState[..], toState[..]);
    StoredIsOK(g, A, gs);
  }

  /** map_goto: the binary search starts one past the block but never reads outside it when the
      transition exists, and returns the one number of that transition. */
  method MapGoto(g: Packed, A: Automaton, gs: Gotos, state: nat, symbol: nat, ghost target: nat) returns (middle: nat)
    requires g.WellFormed() && GotosOK(g, A, gs) && g.ntokens <= symbol < g.nsyms && Goto(A, state, symbol, target)
    ensures NumberOf(gs, state, symbol, target, middle)
    ensures forall n: nat :: InBlock(gs, symbol, n) && gs.from[n] == state ==> n == middle
  {
    assert BlockOK(A, gs, symbol);
    assert Numbered(gs, state, symbol, target);
    ghost var n: nat :| NumberOf(gs, state, symbol, target, n);
    var low := gs.map_[symbol];
    var high: int := gs.map_[symbol + 1];
    while true
      invariant gs.map_[symbol] <= low <= n <= high <= gs.map_[symbol + 1]
      decreases high - low
    {
      middle := (low + high) / 2;
      assert InBlock(gs, symbol, middle);
      var s := gs.from[middle];
      if s == state {
        return;
      } else if s < state {
        low := middle + 1;
      } else {
        high := middle - 1;
      }
    }
  }
}

/** output.c, output_rule_data to output_ctable: the tables of the generated parser, and what
    reading them back yields. */
module Output {
  import opened Grammar
  import opened LR0
  import opened Paths
  import opened GotoMap
  import opened MkPar
  import opened ConflictTable
  import Pack
  import opened TokenActions
  import opened ActionRows
  import opened GotoColumns

  /** yylhs, yylen, yydefred, yydgoto, the four index tables, yytable, yycheck, YYTABLESIZE,
      yyctable and YYFINAL. */
  datatype Tables = Tables(lhs: seq<int>, len: seq<int>, defred: seq<int>, dgoto: seq<nat>,
                           sindex: seq<int>, rindex: seq<int>, cindex: seq<int>, gindex: seq<int>,
                           table: seq<int>, check: seq<int>, size: nat, ctable: seq<int>, final: nat) {
    predicate WellSized() {
      |table| == |check| == size + 1
    }

    /** The test of the generated parser before it uses an entry of yytable. */
    predicate Hit(b: int, key: int)
      requires WellSized()
    {
      b != 0 && b + key >= 0 && b + key <= size && check[b + key] == key
    }

    /** The state entered over nonterminal X (numbered as in yylhs) from p. */
    function GotoTo(p: nat, X: nat): int
      requires WellSized() && X < |gindex| && X < |dgoto|
    {
      if Hit(gindex[X], p) then table[gindex[X] + p] else dgoto[X]
    }
  }

  /** The external numbers of pack_symbols: nonterminals count up from the goal. */
  ghost predicate Values(g: Packed) {
    NaturalCodes(g) && g.value[g.ntokens] == -1 && forall X: nat :: g.ntokens < X < g.nsyms ==>
        g.value[X] == X - g.ntokens - 1
  }

  ghost predicate TokenWith(g: Packed, t: nat, key: int) {
    t < g.ntokens && t < |g.value| && g.value[t] == key
  }

  /** Key is the number of a token with an entry of the given kind in the row. */
  ghost predicate HasEntry(g: Packed, row: seq<Action>, defred: nat, kind: nat, key: int) {
    exists t: nat :: TokenWith(g, t, key) && Counted(row, |row|, t, defred, kind)
  }

  /** State q reads back: its hits are exactly its tokens, with their shifts, reductions and lists. */
  ghost predicate StateReads(g: Packed, row: seq<Action>, defred: nat, T: Tables, q: nat)
    requires T.WellSized() && q < |T.sindex| && q < |T.rindex| && q < |T.cindex|
  {
    && (forall key: nat :: T.Hit(T.sindex[q], key) <==> HasEntry(g, row, defred, 0, key))
    && (forall key: nat :: T.Hit(T.rindex[q], key) <==> HasEntry(g, row, defred, 1, key))
    && (forall key: nat :: T.Hit(T.cindex[q], key) <==> HasEntry(g, row, defred, 2, key))
    && forall t: nat, key: nat :: TokenWith(g, t, key) ==> TokenReads(row, defred, T, q, t, key)
  }

  ghost predicate TokenReads(row: seq<Action>, defred: nat, T: Tables, q: nat, t: nat, key: nat)
    requires T.WellSized() && q < |T.sindex| && q < |T.rindex| && q < |T.cindex|
  {
    && (T.Hit(T.sindex[q], key) ==> T.table[T.sindex[q] + key] == ShiftOf(row, |row|, t))
    && (T.Hit(T.rindex[q], key) ==> T.table[T.rindex[q] + key] == ReduceOf(row, |row|, t, defred) - 2)
    && (T.Hit(T.cindex[q], key) ==>
          T.table[T.cindex[q] + key] >= 0 &&
          Kept(T.ctable, T.table[T.cindex[q] + key] + 1, ListOf(row, |row|, t, defred),
              ReduceLeads(row, |row|, t, defred)))
  }

  /** What yydefred holds: a rule as the parser numbers it, 0 for none. */
  function DefaultOut(rule: nat): int {
    if rule == 0 then 0 else rule - 2
  }

  /** Everything the tables say. */
  ghost predicate TablesOK(g: Packed, A: Automaton, parser: seq<seq<Action>>, defred: seq<nat>, finalState: nat,
                           T: Tables)
    requires g.WellFormed()
  {
    && T.WellSized() && |parser| == |defred| == |A.states|
    && |T.sindex| == |T.rindex| == |T.cindex| == |T.defred| == |A.states|
    && |T.gindex| == |T.dgoto| == g.nsyms - g.ntokens - 1
    && |T.lhs| == |T.len| == |g.rlhs| - 2 && T.final == finalState
    && (forall y :: 1 <= y < |T.lhs| ==> T.lhs[y] == g.rlhs[y + 2] - g.ntokens - 1 && T.len[y] == |g.Rhs(y + 2)|)
    && T.lhs[0] == -1 && T.len[0] == 2
    && (forall q: nat :: q < |A.states| ==> T.defred[q] == DefaultOut(defred[q]))
    && (forall q: nat :: q < |A.states| ==> StateReads(g, parser[q], defred[q], T, q))
    && (forall p: nat, X: nat, q: nat :: Goto(A, p, X, q) && g.ntokens < X < g.nsyms ==>
        T.GotoTo(p, X - g.ntokens - 1) == q)
  }

  /** The packed vectors and the bases they got. */
  ghost predicate PackedAt(vs: seq<Pack.Vector>, order: seq<nat>, pos: seq<int>, T: Pack.Table, base: seq<int>) {
    && Pack.OrderOK(vs, |vs|, order) && Pack.Packed(vs, order, |order|, pos, T) && T.high < |T.check| && |base| == |vs|
    && (forall p :: 0 <= p < |order| ==> base[order[p]] == pos[p])
    && (forall i: nat :: i < |vs| && Pack.Tally(vs[i]) == 0 ==> base[i] == 0)
  }

  /** What a lookup with the base of vector v finds. */
  ghost predicate Yields(v: Pack.Vector, T: Pack.Table, b: int, key: nat)
    requires |T.table| == |T.check| && |v.froms| == |v.tos|
  {
    && (Pack.Found(T, b, key) <==> key in v.froms)
    && forall k :: 0 <= k < |v.froms| && v.froms[k] == key ==> 0 <= b + key < |T.table| && T.table[b + key] == v.tos[k]
  }

  lemma VectorYields(vs: seq<Pack.Vector>, order: seq<nat>, pos: seq<int>, T: Pack.Table, base: seq<int>, i: nat,
                     key: nat)
    requires PackedAt(vs, order, pos, T, base) && i < |vs| && |vs[i].froms| == |vs[i].tos|
    ensures Yields(vs[i], T, base[i], key)
  {
    if Pack.Tally(vs[i]) > 0 {
      var p :| 0 <= p < |order| && order[p] == i;
      Pack.LookupExact(vs, order, pos, T, p, key);
    }
  }

  /** The tables keep locations 0 to high. */
  ghost predicate Cut(P: Pack.Table, T: Tables) {
    T.WellSized() && P.high < |P.table| == |P.check| && T.size == P.high && T.table == P.table[..P.high + 1] &&
        T.check == P.check[..P.high + 1]
  }

  lemma HitIsFound(P: Pack.Table, T: Tables, b: int, key: nat)
    requires Cut(P, T)
    ensures T.Hit(b, key) <==> Pack.Found(P, b, key)
    ensures T.Hit(b, key) ==> T.table[b + key] == P.table[b + key]
  {}

  lemma CodeIsUnique(g: Packed, s: nat, t: nat, key: int)
    requires NaturalCodes(g) && TokenWith(g, s, key) && TokenWith(g, t, key)
    ensures s == t
  {}

  ghost predicate SlotFor(g: Packed, a: seq<nat>, off: nat, key: int) {
    exists t: nat :: TokenWith(g, t, key) && InUse(a, off, t)
  }

  /** One block of slots, read back through its vector. */
  ghost predicate BlockReads(g: Packed, a: seq<nat>, off: nat, less: nat, T: Tables, b: int, key: nat)
    requires T.WellSized() && off + g.ntokens <= |a|
  {
    && (T.Hit(b, key) <==> SlotFor(g, a, off, key))
    && forall t: nat :: TokenWith(g, t, key) && T.Hit(b, key) ==> T.table[b + key] == a[off + t] - less
  }

  lemma FoundIsSlot(g: Packed, a: seq<nat>, off: nat, less: nat, v: Pack.Vector, P: Pack.Table, b: int, key: nat)
    requires NaturalCodes(g) && off + g.ntokens <= |a| && RowVector(g.value, a, off, g.ntokens, less, v)
    requires |P.table| == |P.check| && |v.froms| == |v.tos| && Yields(v, P, b, key) && Pack.Found(P, b, key)
    ensures 0 <= b + key < |P.table|
    ensures exists t: nat :: TokenWith(g, t, key) && InUse(a, off, t) && P.table[b + key] == a[off + t] - less
  {
    KeysLength(g.value, a, off, g.ntokens, less);
    var k: nat :| k < |v.froms| && v.froms[k] == key;
    var t := KeyHasSlot(g.value, a, off, g.ntokens, less, k);
    assert TokenWith(g, t, key) && InUse(a, off, t);
  }

  lemma SlotIsFound(g: Packed, a: seq<nat>, off: nat, less: nat, v: Pack.Vector, P: Pack.Table, b: int, key: nat,
                    t: nat)
    requires NaturalCodes(g) && off + g.ntokens <= |a| && RowVector(g.value, a, off, g.ntokens, less, v)
    requires |P.table| == |P.check| && |v.froms| == |v.tos| && Yields(v, P, b, key) && TokenWith(g, t, key) &&
        InUse(a, off, t)
    ensures Pack.Found(P, b, key)
  {
    var k := SlotHasKey(g.value, a, off, g.ntokens, less, t);
    KeysLength(g.value, a, off, g.ntokens, less);
    assert v.froms[k] == key;
  }

  lemma RowReads(g: Packed, a: seq<nat>, off: nat, less: nat, v: Pack.Vector, P: Pack.Table, T: Tables, b: int,
                 key: nat)
    requires NaturalCodes(g) && off + g.ntokens <= |a| && RowVector(g.value, a, off, g.ntokens, less, v)
    requires Cut(P, T) && |v.froms| == |v.tos| && Yields(v, P, b, key)
    ensures BlockReads(g, a, off, less, T, b, key)
  {
    hide RowVector, Yields, Packed.WellFormed, Pack.Found;
    HitIsFound(P, T, b, key);
    if T.Hit(b, key) {
      FoundIsSlot(g, a, off, less, v, P, b, key);
    }
    forall t: nat | TokenWith(g, t, key) && InUse(a, off, t)
      ensures T.Hit(b, key) && T.table[b + key] == a[off + t] - less
    {
      SlotIsFound(g, a, off, less, v, P, b, key, t);
      FoundIsSlot(g, a, off, less, v, P, b, key);
      var s: nat :| TokenWith(g, s, key) && InUse(a, off, s) && P.table[b + key] == a[off + s] - less;
      CodeIsUnique(g, s, t, key);
    }
    forall s: nat, t: nat | TokenWith(g, s, key) && TokenWith(g, t, key)
      ensures s == t
    {
      CodeIsUnique(g, s, t, key);
    }
  }

  /** The slots in use for a number are the entries for it. */
  lemma SlotsAreEntries(g: Packed, row: seq<Action>, defred: nat, table: seq<int>, a: seq<nat>, key: int)
    requires |a| == 3 * g.ntokens && AllSlots(row, |row|, defred, table, a, g.ntokens, -1)
    ensures SlotFor(g, a, 0, key) <==> HasEntry(g, row, defred, 0, key)
    ensures SlotFor(g, a, g.ntokens, key) <==> HasEntry(g, row, defred, 1, key)
    ensures SlotFor(g, a, 2 * g.ntokens, key) <==> HasEntry(g, row, defred, 2, key)
  {
    forall t: nat | TokenWith(g, t, key)
      ensures InUse(a, 0, t) <==> Counted(row, |row|, t, defred, 0)
      ensures InUse(a, g.ntokens, t) <==> Counted(row, |row|, t, defred, 1)
      ensures InUse(a, 2 * g.ntokens, t) <==> Counted(row, |row|, t, defred, 2)
    {
      assert SlotsOK(row, |row|, defred, table, a, g.ntokens, t, -1);
    }
  }

  lemma TokenReadsBack(g: Packed, row: seq<Action>, defred: nat, a: seq<nat>, T: Tables, q: nat, t: nat, key: nat)
    requires NaturalCodes(g) && T.WellSized() && q < |T.sindex| && q < |T.rindex| && q < |T.cindex|
    requires |a| == 3 * g.ntokens && SlotsOK(row, |row|, defred, T.ctable, a, g.ntokens, t, -1) && TokenWith(g, t, key)
    requires BlockReads(g, a, 0, 0, T, T.sindex[q], key)
    requires BlockReads(g, a, g.ntokens, 2, T, T.rindex[q], key)
    requires BlockReads(g, a, 2 * g.ntokens, 1, T, T.cindex[q], key)
    ensures TokenReads(row, defred, T, q, t, key)
  {
    if T.Hit(T.cindex[q], key) {
      var s: nat :| TokenWith(g, s, key) && InUse(a, 2 * g.ntokens, s);
      CodeIsUnique(g, s, t, key);
    }
  }

  /** The three vectors of a state, and what a lookup with its bases finds. */
  ghost predicate StatePacked(g: Packed, row: seq<Action>, defred: nat, a: seq<nat>, sv: Pack.Vector, rv: Pack.Vector,
                              cv: Pack.Vector, P: Pack.Table, T: Tables, q: nat) {
    && NaturalCodes(g) && Cut(P, T) && q < |T.sindex| && q < |T.rindex| && q < |T.cindex|
    && StateVectors(g.value, g.ntokens, row, defred, T.ctable, a, sv, rv, cv)
    && |sv.froms| == |sv.tos| && |rv.froms| == |rv.tos| && |cv.froms| == |cv.tos|
    && forall key: nat :: Yields(sv, P, T.sindex[q], key) && Yields(rv, P, T.rindex[q], key) &&
        Yields(cv, P, T.cindex[q], key)
  }

  lemma KeyReadsBack(g: Packed, row: seq<Action>, defred: nat, a: seq<nat>, sv: Pack.Vector, rv: Pack.Vector,
                     cv: Pack.Vector, P: Pack.Table, T: Tables, q: nat, key: nat)
    requires StatePacked(g, row, defred, a, sv, rv, cv, P, T, q)
    ensures BlockReads(g, a, 0, 0, T, T.sindex[q], key)
    ensures BlockReads(g, a, g.ntokens, 2, T, T.rindex[q], key)
    ensures BlockReads(g, a, 2 * g.ntokens, 1, T, T.cindex[q], key)
  {
    RowReads(g, a, 0, 0, sv, P, T, T.sindex[q], key);
    RowReads(g, a, g.ntokens, 2, rv, P, T, T.rindex[q], key);
    RowReads(g, a, 2 * g.ntokens, 1, cv, P, T, T.cindex[q], key);
  }

  /** The vectors of a state, packed, read back as its actions. */
  lemma StateReadsBack(g: Packed, row: seq<Action>, defred: nat, a: seq<nat>, sv: Pack.Vector, rv: Pack.Vector,
                       cv: Pack.Vector, P: Pack.Table, T: Tables, q: nat)
    requires StatePacked(g, row, defred, a, sv, rv, cv, P, T, q)
    ensures StateReads(g, row, defred, T, q)
  {
    forall key: nat
      ensures T.Hit(T.sindex[q], key) <==> HasEntry(g, row, defred, 0, key)
      ensures T.Hit(T.rindex[q], key) <==> HasEntry(g, row, defred, 1, key)
      ensures T.Hit(T.cindex[q], key) <==> HasEntry(g, row, defred, 2, key)
    {
      KeyReadsBack(g, row, defred, a, sv, rv, cv, P, T, q, key);
      SlotsAreEntries(g, row, defred, T.ctable, a, key);
    }
    forall t: nat, key: nat | TokenWith(g, t, key)
      ensures TokenReads(row, defred, T, q, t, key)
    {
      KeyReadsBack(g, row, defred, a, sv, rv, cv, P, T, q, key);
      TokenReadsBack(g, row, defred, a, T, q, t, key);
    }
  }

  /** v and d are the column and the default of nonterminal X. */
  ghost predicate ColumnDone(gs: Gotos, X: nat, d: nat, v: Pack.Vector)
    requires X + 1 < |gs.map_| && gs.map_[X + 1] <= |gs.from| == |gs.to|
  {
    && v.froms == ColumnFroms(gs.from, gs.to, gs.map_[X], gs.map_[X + 1], d)
    && v.tos == ColumnTos(gs.to, gs.map_[X], gs.map_[X + 1], d)
  }

  /** The goto from p over X is read back: through the column, or as the default. */
  lemma GotoReadsBack(g: Packed, A: Automaton, gs: Gotos, X: nat, v: Pack.Vector, P: Pack.Table, T: Tables, p: nat,
                      q: nat)
    requires GotosOK(g, A, gs) && Canonical(g, A) && g.ntokens < X < g.nsyms && Goto(A, p, X, q)
    requires Cut(P, T) && X - g.ntokens - 1 < |T.gindex| && X - g.ntokens - 1 < |T.dgoto|
    requires gs.map_[X] <= gs.map_[X + 1] <= |gs.from| == |gs.to|
    requires ColumnDone(gs, X, T.dgoto[X - g.ntokens - 1], v) && |v.froms| == |v.tos|
    requires Yields(v, P, T.gindex[X - g.ntokens - 1], p)
    ensures T.GotoTo(p, X - g.ntokens - 1) == q
  {
    var m, n, d := gs.map_[X], gs.map_[X + 1], T.dgoto[X - g.ntokens - 1];
    assert BlockOK(A, gs, X);
    assert Numbered(gs, p, X, q);
    var i: nat :| NumberOf(gs, p, X, q, i);
    HitIsFound(P, T, T.gindex[X - g.ntokens - 1], p);
    if q != d {
      var k := GotoHasKey(gs.from, gs.to, m, n, d, i);
      assert v.froms[k] == p;
    } else if k: nat :| k < |v.froms| && v.froms[k] == p {
      var j := KeyHasGoto(gs.from, gs.to, m, n, d, k);
      assert InBlock(gs, X, j);
      GotoUnique(g, A, p, X, q, gs.to[j]);
    }
  }

  /** output_rule_data: left-hand sides by external number, and lengths, from rule 2 on. */
  method RuleData(g: Packed) returns (lhs: seq<int>, len: seq<int>)
    requires Values(g)
    ensures |lhs| == |len| == |g.rlhs| - 2 && lhs[0] == -1 && len[0] == 2
    ensures forall y :: 1 <= y < |lhs| ==> lhs[y] == g.rlhs[y + 2] - g.ntokens - 1 && len[y] == |g.Rhs(y + 2)|
  {
    lhs, len := [g.value[g.ntokens]], [2];
    var i: nat := 3;
    while i < |g.rlhs|
      invariant 3 <= i <= |g.rlhs| && |lhs| == |len| == i - 2 && lhs[0] == -1 && len[0] == 2
      invariant forall y :: 1 <= y < |lhs| ==> lhs[y] == g.rlhs[y + 2] - g.ntokens - 1 && len[y] == |g.Rhs(y + 2)|
    {
      assert g.RuleShape(i);
      lhs := lhs + [g.value[g.rlhs[i]]];
      len := len + [g.rrhs[i + 1] - g.rrhs[i] - 1];
      i := i + 1;
    }
  }

  /** Nonterminal X, counted from the goal, has its default and its column. */
  ghost predicate ColumnAt(g: Packed, gs: Gotos, first: nat, vs: seq<Pack.Vector>, dgoto: seq<nat>, X: nat) {
    var S := X + g.ntokens + 1;
    && S + 1 < |gs.map_| && gs.map_[S] <= gs.map_[S + 1] <= |gs.from| == |gs.to|
    && X < |dgoto| && first + X < |vs| && ColumnDone(gs, S, dgoto[X], vs[first + X])
  }

  /** The columns of the first n nonterminals after the start symbol. */
  ghost predicate ColumnsDone(g: Packed, gs: Gotos, first: nat, vs: seq<Pack.Vector>, dgoto: seq<nat>, n: nat) {
    |dgoto| == n && forall X: nat :: X < n ==> ColumnAt(g, gs, first, vs, dgoto, X)
  }

  lemma ColumnsSnoc(g: Packed, gs: Gotos, first: nat, vs: seq<Pack.Vector>, vs': seq<Pack.Vector>, dgoto: seq<nat>,
                    d: nat, n: nat)
    requires ColumnsDone(g, gs, first, vs, dgoto, n) && |vs| == |vs'| && first + n < |vs|
    requires vs' == vs[first + n := vs'[first + n]] && ColumnAt(g, gs, first, vs', dgoto + [d], n)
    ensures ColumnsDone(g, gs, first, vs', dgoto + [d], n + 1)
  {
    forall X: nat | X < n
      ensures ColumnAt(g, gs, first, vs', dgoto + [d], X)
    {
      assert ColumnAt(g, gs, first, vs, dgoto, X);
    }
  }

  /** goto_actions: a default and a column per nonterminal. */
  method GotoActions(g: Packed, ghost A: Automaton, gs: Gotos, nstates: nat, vs: array<Pack.Vector>)
    returns (dgoto: seq<nat>)
    requires Values(g) && GotosOK(g, A, gs) && Canonical(g, A) && nstates == |A.states|
    requires vs.Length == 3 * nstates + g.nsyms - g.ntokens
    modifies vs
    ensures ColumnsDone(g, gs, 3 * nstates, vs[..], dgoto, g.nsyms - g.ntokens - 1)
    ensures forall k :: 0 <= k < 3 * nstates ==> vs[k] == old(vs[k])
    ensures vs[vs.Length - 1] == old(vs[vs.Length - 1])
  {
    dgoto := [];
    var i: nat := g.ntokens + 1;
    while i < g.nsyms
      invariant g.ntokens < i <= g.nsyms
      invariant ColumnsDone(g, gs, 3 * nstates, vs[..], dgoto, i - g.ntokens - 1)
      invariant forall k :: 0 <= k < 3 * nstates ==> vs[k] == old(vs[k])
      invariant vs[vs.Length - 1] == old(vs[vs.Length - 1])
    {
      BlockFacts(g, A, gs, i);
      var k := DefaultGoto(nstates, gs.map_, gs.to, i);
      var v := SaveColumn(gs.from, gs.to, gs.map_[i], gs.map_[i + 1], k);
      ghost var before := vs[..];
      vs[3 * nstates + g.value[i]] := v;
      ColumnsSnoc(g, gs, 3 * nstates, before, vs[..], dgoto, k, i - g.ntokens - 1);
      dgoto := dgoto + [k];
      i := i + 1;
    }
  }

  lemma BlockFacts(g: Packed, A: Automaton, gs: Gotos, X: nat)
    requires GotosOK(g, A, gs) && g.ntokens <= X < g.nsyms
    ensures gs.map_[X] <= gs.map_[X + 1] <= |gs.from| == |gs.to|
    ensures forall i :: 0 <= i < |gs.to| ==> gs.to[i] < |A.states|
    ensures forall i, k :: gs.map_[X] <= i < k < gs.map_[X + 1] ==> gs.from[i] < gs.from[k]
  {
    forall i: nat | i < |gs.to|
      ensures gs.to[i] < |A.states|
    {
      var Y := BlockBelow(g, A, gs, i, g.nsyms);
      assert BlockOK(A, gs, Y);
    }
    assert BlockOK(A, gs, X);
    assert gs.map_[X + 1] <= gs.map_[g.nsyms];
    forall i: nat, k: nat | gs.map_[X] <= i < k < gs.map_[X + 1]
      ensures gs.from[i] < gs.from[k]
    {
      assert InBlock(gs, X, i) && InBlock(gs, X, k);
    }
  }

  /** All vectors of a grammar, in the order of their numbers. */
  ghost predicate AllVectors(g: Packed, gs: Gotos, parser: seq<seq<Action>>, defred: seq<nat>, ctable: seq<int>,
                             slots: seq<seq<nat>>, dgoto: seq<nat>, vs: seq<Pack.Vector>) {
    && g.ntokens + 2 <= g.nsyms && |vs| == 3 * |parser| + g.nsyms - g.ntokens
    && StatesDone(g.value, g.ntokens, parser, defred, ctable, slots, vs, |parser|)
    && ColumnsDone(g, gs, 3 * |parser|, vs, dgoto, g.nsyms - g.ntokens - 1)
    && vs[|vs| - 1] == Pack.Vector([], [], 0)
  }

  lemma ColumnVectorOK(g: Packed, A: Automaton, gs: Gotos, X: nat, d: nat, v: Pack.Vector)
    requires GotosOK(g, A, gs) && g.ntokens <= X < g.nsyms
    requires gs.map_[X + 1] <= |gs.from| && ColumnDone(gs, X, d, v)
    ensures Pack.VectorOK(v)
  {
    BlockFacts(g, A, gs, X);
    ColumnLengths(gs.from, gs.to, gs.map_[X], gs.map_[X + 1], gs.map_[X + 1], d);
    ColumnAscends(gs.from, gs.to, gs.map_[X], gs.map_[X + 1], d);
  }

  lemma RowVectorOK(g: Packed, a: seq<nat>, off: nat, less: nat, v: Pack.Vector)
    requires NaturalCodes(g) && off + g.ntokens <= |a| && RowVector(g.value, a, off, g.ntokens, less, v)
    ensures Pack.VectorOK(v)
  {
    KeysLength(g.value, a, off, g.ntokens, less);
    KeysDistinct(g, a, off, g.ntokens);
    assert forall k :: 0 <= k < |v.froms| ==> v.froms[k] == Keys(g.value, a, off, g.ntokens)[k];
  }

  lemma StateVectorsOK(g: Packed, row: seq<Action>, defred: nat, table: seq<int>, a: seq<nat>, sv: Pack.Vector,
                       rv: Pack.Vector, cv: Pack.Vector)
    requires NaturalCodes(g) && StateVectors(g.value, g.ntokens, row, defred, table, a, sv, rv, cv)
    ensures Pack.VectorOK(sv) && Pack.VectorOK(rv) && Pack.VectorOK(cv)
  {
    RowVectorOK(g, a, 0, 0, sv);
    RowVectorOK(g, a, g.ntokens, 2, rv);
    RowVectorOK(g, a, 2 * g.ntokens, 1, cv);
  }

  lemma VectorsOK(g: Packed, A: Automaton, gs: Gotos, parser: seq<seq<Action>>, defred: seq<nat>, ctable: seq<int>,
                  slots: seq<seq<nat>>, dgoto: seq<nat>, vs: seq<Pack.Vector>)
    requires NaturalCodes(g) && GotosOK(g, A, gs) && AllVectors(g, gs, parser, defred, ctable, slots, dgoto, vs)
    ensures forall i :: 0 <= i < |vs| ==> Pack.VectorOK(vs[i])
  {
    var n := |parser|;
    hide StateVectors, NaturalCodes, GotosOK, ColumnDone;
    forall i | 0 <= i < |vs|
      ensures Pack.VectorOK(vs[i])
    {
      if i < 3 * n {
        var q: nat := if i < n then i else if i < 2 * n then i - n else i - 2 * n;
        StateVectorsOK(g, parser[q], defred[q], ctable, slots[q], vs[q], vs[n + q], vs[2 * n + q]);
      } else if i < |vs| - 1 {
        var X: nat := i - 3 * n;
        assert ColumnAt(g, gs, 3 * n, vs, dgoto, X);
        ColumnVectorOK(g, A, gs, X + g.ntokens + 1, dgoto[X], vs[i]);
      }
    }
  }

  /** The tables are cut from the bases and the packed table. */
  ghost predicate Assembled(g: Packed, parser: seq<seq<Action>>, base: seq<int>, P: Pack.Table, T: Tables) {
    var n := |parser|;
    && g.ntokens < g.nsyms && |base| == 3 * n + g.nsyms - g.ntokens && Cut(P, T)
    && T.sindex == base[..n] && T.rindex == base[n..2 * n] && T.cindex == base[2 * n..3 * n] &&
        T.gindex == base[3 * n..|base| - 1]
  }

  lemma StateIsPacked(g: Packed, A: Automaton, gs: Gotos, parser: seq<seq<Action>>, defred: seq<nat>,
                      slots: seq<seq<nat>>, vs: seq<Pack.Vector>, order: seq<nat>, pos: seq<int>, P: Pack.Table,
                      base: seq<int>, T: Tables, q: nat)
    requires NaturalCodes(g) && AllVectors(g, gs, parser, defred, T.ctable, slots, T.dgoto, vs) && q < |parser|
    requires forall i :: 0 <= i < |vs| ==> Pack.VectorOK(vs[i])
    requires PackedAt(vs, order, pos, P, base) && Assembled(g, parser, base, P, T)
    ensures StateReads(g, parser[q], defred[q], T, q)
  {
    var n := |parser|;
    hide StateVectors, NaturalCodes, PackedAt, Yields, ColumnsDone, StateReads;
    assert StateVectors(g.value, g.ntokens, parser[q], defred[q], T.ctable, slots[q], vs[q], vs[n + q], vs[2 * n + q]);
    forall key: nat
      ensures Yields(vs[q], P, T.sindex[q], key) && Yields(vs[n + q], P, T.rindex[q], key) &&
          Yields(vs[2 * n + q], P, T.cindex[q], key)
    {
      VectorYields(vs, order, pos, P, base, q, key);
      VectorYields(vs, order, pos, P, base, n + q, key);
      VectorYields(vs, order, pos, P, base, 2 * n + q, key);
    }
    StateReadsBack(g, parser[q], defred[q], slots[q], vs[q], vs[n + q], vs[2 * n + q], P, T, q);
  }

  lemma ColumnIsPacked(g: Packed, A: Automaton, gs: Gotos, parser: seq<seq<Action>>, defred: seq<nat>,
                       slots: seq<seq<nat>>, vs: seq<Pack.Vector>, order: seq<nat>, pos: seq<int>, P: Pack.Table,
                       base: seq<int>, T: Tables, p: nat, X: nat, q: nat)
    requires GotosOK(g, A, gs) && Canonical(g, A)
    requires AllVectors(g, gs, parser, defred, T.ctable, slots, T.dgoto, vs)
    requires forall i :: 0 <= i < |vs| ==> Pack.VectorOK(vs[i])
    requires PackedAt(vs, order, pos, P, base) && Assembled(g, parser, base, P, T)
    requires Goto(A, p, X, q) && g.ntokens < X < g.nsyms
    ensures T.GotoTo(p, X - g.ntokens - 1) == q
  {
    hide GotosOK, Canonical, PackedAt, StatesDone, ColumnDone, Yields;
    var first := 3 * |parser|;
    var Y := X - g.ntokens - 1;
    assert ColumnAt(g, gs, first, vs, T.dgoto, Y);
    VectorYields(vs, order, pos, P, base, first + Y, p);
    BlockFacts(g, A, gs, X);
    assert T.gindex[Y] == base[first + Y];
    GotoReadsBack(g, A, gs, X, vs[first + Y], P, T, p, q);
  }

  /** output_yydefred. */
  method DefaultTable(defred: seq<nat>) returns (out: seq<int>)
    ensures |out| == |defred| && forall q :: 0 <= q < |out| ==> out[q] == DefaultOut(defred[q])
  {
    out := [];
    var i := 0;
    while i < |defred|
      invariant i == |out| <= |defred| && forall q :: 0 <= q < i ==> out[q] == DefaultOut(defred[q])
    {
      var rule: int := defred[i];
      out := out + [if rule != 0 then rule - 2 else 0];
      i := i + 1;
    }
  }

  lemma StatesKept(g: Packed, parser: seq<seq<Action>>, defred: seq<nat>, ctable: seq<int>, slots: seq<seq<nat>>,
                   vs: seq<Pack.Vector>, vs': seq<Pack.Vector>)
    requires StatesDone(g.value, g.ntokens, parser, defred, ctable, slots, vs, |parser|) && |vs'| == |vs|
    requires forall k :: 0 <= k < 3 * |parser| ==> vs'[k] == vs[k]
    ensures StatesDone(g.value, g.ntokens, parser, defred, ctable, slots, vs', |parser|)
  {
    var n := |parser|;
    forall q: nat | q < n
      ensures StateVectors(g.value, g.ntokens, parser[q], defred[q], ctable, slots[q], vs'[q], vs'[n + q],
          vs'[2 * n + q])
    {
      assert StateVectors(g.value, g.ntokens, parser[q], defred[q], ctable, slots[q], vs[q], vs[n + q], vs[2 * n + q]);
    }
  }

  /** The vectors of token_actions and goto_actions. */
  method MakeVectors(g: Packed, ghost A: Automaton, gs: Gotos, nstates: nat, parser: seq<seq<Action>>, defred: seq<nat>,
                     ghost finalState: nat, total: nat, ghost raws: seq<seq<Action>>)
    returns (ctable: seq<int>, dgoto: seq<nat>, vs: seq<Pack.Vector>, ghost slots: seq<seq<nat>>)
    requires Values(g) && GotosOK(g, A, gs) && Canonical(g, A) && nstates == |A.states| == |parser| == |defred|
    requires RowsReady(g.ntokens, raws, parser, finalState) && total == Total(raws, finalState, |raws|)
    ensures AllVectors(g, gs, parser, defred, ctable, slots, dgoto, vs) && |ctable| <= 4 * total
    ensures forall i :: 0 <= i < |vs| ==> Pack.VectorOK(vs[i])
  {
    var vectors := new Pack.Vector[3 * nstates + g.nsyms - g.ntokens](_ => Pack.Vector([], [], 0));
    ctable, slots := AllStates(g.value, g.ntokens, raws, parser, finalState, defred, total, vectors);
    ghost var before := vectors[..];
    dgoto := GotoActions(g, A, gs, nstates, vectors);
    vs := vectors[..];
    StatesKept(g, parser, defred, ctable, slots, before, vs);
    VectorsOK(g, A, gs, parser, defred, ctable, slots, dgoto, vs);
  }

  /** sort_actions and pack_table. */
  method PackVectors(vs: seq<Pack.Vector>, nstates: nat)
    returns (base: seq<int>, P: Pack.Table, order: seq<nat>, pos: seq<int>)
    requires forall i :: 0 <= i < |vs| ==> Pack.VectorOK(vs[i])
    ensures PackedAt(vs, order, pos, P, base)
    ensures |pos| == |order| && Pack.SharedRows(vs, order, nstates, pos, |order|)
  {
    var sorted := Pack.SortActions(vs);
    order := sorted;
    var packer := new Pack.Packer(vs, sorted, nstates);
    var bases := packer.PackTable();
    base, pos := bases[..], packer.pos;
    P := Pack.Table(packer.table, packer.check, packer.lowzero, packer.high);
  }

  /** What the packed vectors make of the tables. */
  lemma TablesReadBack(g: Packed, A: Automaton, gs: Gotos, parser: seq<seq<Action>>, defred: seq<nat>,
                       slots: seq<seq<nat>>, vs: seq<Pack.Vector>, order: seq<nat>, pos: seq<int>, P: Pack.Table,
                       base: seq<int>, T: Tables)
    requires Values(g) && GotosOK(g, A, gs) && Canonical(g, A)
    requires AllVectors(g, gs, parser, defred, T.ctable, slots, T.dgoto, vs)
    requires forall i :: 0 <= i < |vs| ==> Pack.VectorOK(vs[i])
    requires PackedAt(vs, order, pos, P, base) && Assembled(g, parser, base, P, T)
    ensures |T.gindex| == |T.dgoto| == g.nsyms - g.ntokens - 1
    ensures forall q: nat :: q < |parser| ==> StateReads(g, parser[q], defred[q], T, q)
    ensures forall p: nat, X: nat, q: nat :: Goto(A, p, X, q) && g.ntokens < X < g.nsyms ==>
        T.GotoTo(p, X - g.ntokens - 1) == q
  {
    assert |defred| == |parser|;
    hide Canonical, StatesDone, PackedAt;
    forall q: nat | q < |parser|
      ensures StateReads(g, parser[q], defred[q], T, q)
    {
      StateIsPacked(g, A, gs, parser, defred, slots, vs, order, pos, P, base, T, q);
    }
    forall p: nat, X: nat, q: nat | Goto(A, p, X, q) && g.ntokens < X < g.nsyms
      ensures T.GotoTo(p, X - g.ntokens - 1) == q
    {
      ColumnIsPacked(g, A, gs, parser, defred, slots, vs, order, pos, P, base, T, p, X, q);
    }
  }

  /** The whole of output: every table of the generated parser. */
  method WriteTables(g: Packed, ghost A: Automaton, gs: Gotos, nstates: nat, parser: seq<seq<Action>>, defred: seq<nat>,
                     finalState: nat, total: nat, ghost raws: seq<seq<Action>>) returns (T: Tables)
    requires Values(g) && GotosOK(g, A, gs) && Canonical(g, A) && nstates == |A.states| == |parser| == |defred|
    requires RowsReady(g.ntokens, raws, parser, finalState) && total == Total(raws, finalState, |raws|)
    ensures TablesOK(g, A, parser, defred, finalState, T) && |T.ctable| <= 4 * total
  {
    var lhs, len := RuleData(g);
    var out := DefaultTable(defred);
    var ctable, dgoto, vs, slots := MakeVectors(g, A, gs, nstates, parser, defred, finalState, total, raws);
    var base, P, order, pos := PackVectors(vs, nstates);
    var n := nstates;
    T := Tables(lhs, len, out, dgoto, base[..n], base[n..2 * n], base[2 * n..3 * n], base[3 * n..|base| - 1],
                P.table[..P.high + 1], P.check[..P.high + 1], P.high, ctable, finalState);
    TablesReadBack(g, A, gs, parser, defred, slots, vs, order, pos, P, base, T);
  }

  /** The alternatives on token t, in order: every action on it that conflict resolution left in
      conflict. */
  ghost function Alternatives(row: seq<Action>, n: nat, t: nat): seq<int>
    requires n <= |row|
  {
    if n == 0 then []
    else if row[n - 1].symbol == t && row[n - 1].suppressed == 1 then Alternatives(row, n - 1, t) + [Entry(row[n - 1])]
    else Alternatives(row, n - 1, t)
  }

  lemma {:induction false} ListIsAlternatives(row: seq<Action>, n: nat, t: nat)
    requires n <= |row| && forall p :: 0 <= p < |row| && row[p].code == Reduce ==> row[p].number >= 2
    ensures ListOf(row, n, t, 0) == Alternatives(row, n, t)
    ensures AnyConflict(row, n, t) <==> Alternatives(row, n, t) != []
  {
    if n > 0 {
      ListIsAlternatives(row, n - 1, t);
    }
  }

  /** What a hit in the conflict index of a state points to. */
  lemma HitIsKept(g: Packed, row: seq<Action>, T: Tables, q: nat, t: nat, key: nat)
    requires NaturalCodes(g) && T.WellSized() && q < |T.sindex| && q < |T.rindex| && q < |T.cindex|
    requires StateReads(g, row, 0, T, q) && TokenWith(g, t, key)
    ensures T.Hit(T.cindex[q], key) <==> AnyConflict(row, |row|, t)
    ensures T.Hit(T.cindex[q], key) ==>
              && T.table[T.cindex[q] + key] >= 0
              && Kept(T.ctable, T.table[T.cindex[q] + key] + 1, ListOf(row, |row|, t, 0), ReduceLeads(row, |row|, t, 0))
  {
    hide ListOf, ReduceLeads, AnyConflict, Kept;
    if T.Hit(T.cindex[q], key) {
      var s: nat :| TokenWith(g, s, key) && Counted(row, |row|, s, 0, 2);
      CodeIsUnique(g, s, t, key);
      assert TokenReads(row, 0, T, q, t, key);
    }
    if AnyConflict(row, |row|, t) {
      assert Counted(row, |row|, t, 0, 2);
      assert HasEntry(g, row, 0, 2, key);
    }
  }

  /** In a state without a default reduction the conflict table, read as the parser reads it, gives
      exactly the alternatives, in order; the leading mark says that the first is a reduction. */
  lemma ConflictsDecode(g: Packed, row: seq<Action>, T: Tables, q: nat, t: nat, key: nat)
    requires NaturalCodes(g) && T.WellSized() && q < |T.sindex| && q < |T.rindex| && q < |T.cindex|
    requires StateReads(g, row, 0, T, q) && RowFacts(row, g.ntokens) && TokenWith(g, t, key)
    ensures T.Hit(T.cindex[q], key) <==> Alternatives(row, |row|, t) != []
    ensures T.Hit(T.cindex[q], key) ==>
              var e := T.table[T.cindex[q] + key];
              && 0 <= e < |T.ctable| && Decode(T.ctable, e) == Alternatives(row, |row|, t)
              && (T.ctable[e] == -1 <==> ReduceLeads(row, |row|, t, 0))
  {
    forall p | 0 <= p < |row| && row[p].code == Reduce
      ensures row[p].number >= 2
    {
      assert row[p] in row;
    }
    HitIsKept(g, row, T, q, t, key);
    hide ListOf, ReduceLeads, AnyConflict, Alternatives, Decode, StateReads, NaturalCodes;
    ListIsAlternatives(row, |row|, t);
    ListIsNatural(row, |row|, t, 0);
    if T.Hit(T.cindex[q], key) {
      DecodeStored(T.ctable, T.table[T.cindex[q] + key], ListOf(row, |row|, t, 0), ReduceLeads(row, |row|, t, 0));
    }
  }

  /** Identical rows of shifts, or of reductions, are stored once: their width follows from their
      keys, so sorting brings them together and they get one base. */
  lemma IdenticalRowsShare(vs: seq<Pack.Vector>, order: seq<nat>, pos: seq<int>, P: Pack.Table, base: seq<int>,
                           nstates: nat, i: nat, k: nat)
    requires PackedAt(vs, order, pos, P, base) && |pos| == |order| && Pack.SharedRows(vs, order, nstates, pos, |order|)
    requires i < 2 * nstates && k < 2 * nstates && i < |vs| && k < |vs| && Pack.Same(vs[i], vs[k])
    requires vs[i].width == WidthOf(vs[i].froms) && vs[k].width == WidthOf(vs[k].froms)
    ensures base[i] == base[k]
  {
    if Pack.Tally(vs[i]) > 0 {
      var p :| 0 <= p < |order| && order[p] == i;
      var q :| 0 <= q < |order| && order[q] == k;
      assert Pack.RowPair(vs, order, nstates, p, q) && Pack.RowPair(vs, order, nstates, q, p);
    }
  }
}

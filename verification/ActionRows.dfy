/** output.c, token_actions (the rest), default_goto and save_column: from filled slots and
    numbered gotos to the sparse vectors that are packed. */
module ActionRows {
  import opened Defs
  import opened Grammar
  import opened MkPar
  import opened ConflictTable
  import opened Pack
  import opened TokenActions

  /** No token keeps two standing actions. */
  ghost predicate OneStands(row: seq<Action>) {
    forall p, q :: 0 <= p < q < |row| && row[p].symbol == row[q].symbol ==>
        row[p].suppressed != 0 || row[q].suppressed != 0
  }

  ghost predicate Counted(row: seq<Action>, n: nat, t: nat, defred: nat, kind: nat)
    requires n <= |row|
  {
    if kind == 0 then ShiftOf(row, n, t) != 0 else if kind == 1 then ReduceOf(row, n, t, defred) != 0
        else AnyConflict(row, n, t)
  }

  /** The tokens with a shift (kind 0), a reduction (1) or a conflict (2) among the first n actions. */
  ghost function Tokens(row: seq<Action>, n: nat, defred: nat, ntokens: nat, kind: nat): set<nat>
    requires n <= |row|
  {
    set t: nat | t < ntokens && Counted(row, n, t, defred, kind)
  }

  /** Nothing of token t stands before action n if action n on t stands. */
  lemma {:induction false} NothingStands(row: seq<Action>, n: nat, m: nat, defred: nat)
    requires OneStands(row) && m <= n < |row| && row[n].suppressed == 0
    ensures ShiftOf(row, m, row[n].symbol) == 0 && ReduceOf(row, m, row[n].symbol, defred) == 0
  {
    if m > 0 {
      NothingStands(row, n, m - 1, defred);
    }
  }

  /** How one action changes the three token sets. */
  lemma TokensStep(row: seq<Action>, n: nat, defred: nat, ntokens: nat)
    requires RowFacts(row, ntokens) && OneStands(row) && n < |row|
    ensures var a := row[n]; var t := a.symbol;
            && Tokens(row, n + 1, defred, ntokens, 0) ==
                Tokens(row, n, defred, ntokens, 0) + (if a.suppressed == 0 && a.code == Shift then {t} else {})
            && Tokens(row, n + 1, defred, ntokens, 1) ==
                Tokens(row, n, defred, ntokens, 1)
                + (if a.suppressed == 0 && a.code == Reduce && a.number != defred then {t} else {})
            && Tokens(row, n + 1, defred, ntokens, 2) ==
                Tokens(row, n, defred, ntokens, 2) + (if a.suppressed == 1 then {t} else {})
    ensures row[n].suppressed == 0 ==>
        row[n].symbol !in Tokens(row, n, defred, ntokens, 0) + Tokens(row, n, defred, ntokens, 1)
  {
    assert row[n] in row;
    if row[n].suppressed == 0 {
      NothingStands(row, n, n, defred);
    }
  }

  lemma NoTokens(row: seq<Action>, defred: nat, ntokens: nat, kind: nat)
    ensures Tokens(row, 0, defred, ntokens, kind) == {}
  {}

  /** How one action changes their sizes. */
  lemma CountsStep(row: seq<Action>, n: nat, defred: nat, ntokens: nat)
    requires RowFacts(row, ntokens) && OneStands(row) && n < |row|
    ensures var a := row[n]; var stands := a.suppressed == 0;
            && |Tokens(row, n + 1, defred, ntokens, 0)| ==
                |Tokens(row, n, defred, ntokens, 0)| + (if stands && a.code == Shift then 1 else 0)
            && |Tokens(row, n + 1, defred, ntokens, 1)| ==
                 |Tokens(row, n, defred, ntokens, 1)| +
                     (if stands && a.code == Reduce && a.number != defred then 1 else 0)
            && |Tokens(row, n + 1, defred, ntokens, 2)| ==
                 |Tokens(row, n, defred, ntokens, 2)| +
                     (if a.suppressed == 1 && !AnyConflict(row, n, a.symbol) then 1 else 0)
    ensures row[n].suppressed == 1 ==> AnyConflict(row, n + 1, row[n].symbol)
    ensures forall t: nat :: AnyConflict(row, n, t) ==> AnyConflict(row, n + 1, t)
    ensures row[n].suppressed != 1 ==> AnyConflict(row, n + 1, row[n].symbol) == AnyConflict(row, n, row[n].symbol)
  {
    TokensStep(row, n, defred, ntokens);
    assert row[n] in row;
  }

  /** The counters of token_actions before action p; csym is the token whose list is open. */
  ghost predicate Counters(row: seq<Action>, p: nat, defred: nat, ntokens: nat, shifts: nat, reduces: nat,
                           conflicts: nat, csym: int)
    requires p <= |row|
  {
    && shifts == |Tokens(row, p, defred, ntokens, 0)| && reduces == |Tokens(row, p, defred, ntokens, 1)|
    && conflicts + (if csym == -1 then 0 else 1) == |Tokens(row, p, defred, ntokens, 2)|
    && csym >= -1 && (csym >= 0 ==> p > 0 && row[p - 1].symbol == csym && AnyConflict(row, p, csym))
    && (csym == -1 && p < |row| ==> !AnyConflict(row, p, row[p].symbol))
  }

  lemma NothingCounted(row: seq<Action>, defred: nat, ntokens: nat)
    ensures Counters(row, 0, defred, ntokens, 0, 0, 0, -1)
  {
    NoTokens(row, defred, ntokens, 0);
    NoTokens(row, defred, ntokens, 1);
    NoTokens(row, defred, ntokens, 2);
  }

  /** The counters of token_actions: standing shifts, standing reductions, and closed lists. */
  method Tallies(row: seq<Action>, defred: nat, ghost ntokens: nat)
    returns (shiftcount: nat, reducecount: nat, conflictcount: nat)
    requires RowFacts(row, ntokens) && OneStands(row)
    ensures shiftcount == |Tokens(row, |row|, defred, ntokens, 0)|
    ensures reducecount == |Tokens(row, |row|, defred, ntokens, 1)|
    ensures conflictcount == |Tokens(row, |row|, defred, ntokens, 2)|
  {
    shiftcount, reducecount, conflictcount := 0, 0, 0;
    var csym: int := -1;
    var p := 0;
    NothingCounted(row, defred, ntokens);
    assert SymbolsAscend(row);
    hide Tokens, AnyConflict, SymbolsAscend, OneStands;
    while p < |row|
      invariant p <= |row| && Counters(row, p, defred, ntokens, shiftcount, reducecount, conflictcount, csym)
    {
      if csym != -1 && csym != row[p].symbol {
        NewToken(row, p, defred);
        conflictcount := conflictcount + 1;
        csym := -1;
      }
      CountsStep(row, p, defred, ntokens);
      if row[p].suppressed == 0 {
        if row[p].code == Shift {
          shiftcount := shiftcount + 1;
        } else if row[p].code == Reduce && row[p].number != defred {
          reducecount := reducecount + 1;
        }
      } else if row[p].suppressed == 1 {
        csym := row[p].symbol;
      }
      if csym == -1 {
        NextIsFresh(row, p, defred, csym);
      }
      p := p + 1;
    }
    if csym != -1 {
      conflictcount := conflictcount + 1;
    }
  }

  /** A token not met yet has no conflict. */
  lemma NewToken(row: seq<Action>, p: nat, defred: nat)
    requires SymbolsAscend(row) && 0 < p < |row| && row[p - 1].symbol != row[p].symbol
    ensures !AnyConflict(row, p, row[p].symbol)
  {
    Untold(row, p, row[p].symbol, defred);
  }

  ghost predicate NaturalCodes(g: Packed) {
    g.WellFormed() && g.DistinctCodes() && forall t :: 0 <= t < g.ntokens ==> g.value[t] >= 0
  }

  /** The slots in use among n slots from off on. */
  ghost function Filled(a: seq<nat>, off: nat, n: nat): set<nat>
    requires off + n <= |a|
  {
    set t: nat | t < n && InUse(a, off, t)
  }

  predicate InUse(a: seq<nat>, off: nat, t: nat) {
    off + t < |a| && a[off + t] != 0
  }

  lemma FilledStep(a: seq<nat>, off: nat, n: nat)
    requires off + n + 1 <= |a|
    ensures |Filled(a, off, n + 1)| == |Filled(a, off, n)| + (if a[off + n] != 0 then 1 else 0)
  {
    assert Filled(a, off, n + 1) == Filled(a, off, n) + (if a[off + n] != 0 then {n} else {});
  }

  lemma FilledBelow(a: seq<nat>, off: nat, n: nat, m: nat)
    requires n <= m && off + m <= |a|
    ensures |Filled(a, off, n)| <= |Filled(a, off, m)|
    decreases m
  {
    if n < m {
      FilledBelow(a, off, n, m - 1);
      FilledStep(a, off, m - 1);
    }
  }

  /** The keys and entries of a row of slots: external token numbers, and slot contents less a shift. */
  ghost function Keys(value: seq<int>, a: seq<nat>, off: nat, n: nat): seq<int>
    requires off + n <= |a| && n <= |value|
  {
    if n == 0 then [] else Keys(value, a, off, n - 1) + (if a[off + n - 1] != 0 then [value[n - 1]] else [])
  }

  ghost function Entries(a: seq<nat>, off: nat, n: nat, less: nat): seq<int>
    requires off + n <= |a|
  {
    if n == 0 then [] else Entries(a, off, n - 1, less) + (if a[off + n - 1] != 0 then [a[off + n - 1] - less] else [])
  }

  lemma RowStep(value: seq<int>, a: seq<nat>, off: nat, n: nat, less: nat)
    requires off + n + 1 <= |a| && n + 1 <= |value|
    ensures Keys(value, a, off, n + 1) == (if a[off + n] != 0 then Keys(value, a, off, n) + [value[n]]
        else Keys(value, a, off, n))
    ensures Entries(a, off, n + 1, less) == (if a[off + n] != 0 then Entries(a, off, n, less) + [a[off + n] - less]
        else Entries(a, off, n, less))
  {}

  function MaxOf(s: seq<nat>): nat {
    if s == [] then 0 else if MaxOf(s[..|s| - 1]) < s[|s| - 1] then s[|s| - 1] else MaxOf(s[..|s| - 1])
  }

  function MinOf(s: seq<nat>): nat {
    if s == [] then MAXSHORT else if MinOf(s[..|s| - 1]) > s[|s| - 1] then s[|s| - 1] else MinOf(s[..|s| - 1])
  }

  lemma MinIsBelow(s: seq<nat>)
    requires s != []
    ensures MinOf(s) <= MaxOf(s)
  {
    if |s| > 1 {
      MinIsBelow(s[..|s| - 1]);
    }
  }

  /** The width a row of keys is given: it depends on the keys alone. */
  function WidthOf(s: seq<nat>): nat {
    if s == [] then 0 else MinIsBelow(s); MaxOf(s) - MinOf(s) + 1
  }

  /** The width spans the keys. */
  lemma {:induction false} WidthSpans(s: seq<nat>) returns (lo: nat, hi: nat)
    requires s != [] && forall k :: 0 <= k < |s| ==> s[k] <= MAXSHORT
    ensures lo in s && hi in s && MinOf(s) == lo && MaxOf(s) == hi && WidthOf(s) == hi - lo + 1
    ensures forall k :: 0 <= k < |s| ==> lo <= s[k] <= hi
    decreases |s|
  {
    var n := |s| - 1;
    if n == 0 {
      assert s[..n] == [];
      lo, hi := s[0], s[0];
    } else {
      lo, hi := WidthSpans(s[..n]);
      assert lo in s && hi in s && s[n] in s;
      if s[n] < lo {
        lo := s[n];
      }
      if s[n] > hi {
        hi := s[n];
      }
    }
  }

  /** v is the sparse form of the n slots from off on. */
  ghost predicate RowVector(value: seq<int>, a: seq<nat>, off: nat, n: nat, less: nat, v: Vector)
    requires off + n <= |a| && n <= |value|
  {
    v.froms == Keys(value, a, off, n) && v.tos == Entries(a, off, n, less) && v.width == WidthOf(v.froms)
  }

  lemma SpanSnoc(s: seq<nat>, x: nat)
    ensures MaxOf(s + [x]) == (if MaxOf(s) < x then x else MaxOf(s))
    ensures MinOf(s + [x]) == (if MinOf(s) > x then x else MinOf(s))
  {
    assert (s + [x])[..|s + [x]| - 1] == s;
  }

  /** Slot j enters the vector at place r. */
  method StoreSlot(froms: array<nat>, tos: array<int>, r: nat, key: nat, entry: int)
    requires r < froms.Length == tos.Length
    modifies froms, tos
    ensures froms[..r + 1] == old(froms[..r]) + [key] && tos[..r + 1] == old(tos[..r]) + [entry]
  {
    froms[r] := key;
    tos[r] := entry;
  }

  /** The loop over the slots: keys and entries of those in use, and the span of the keys. */
  method FillLoop(value: seq<int>, ntokens: nat, a: seq<nat>, off: nat, less: nat, froms: array<nat>, tos: array<int>)
    returns (min: nat, max: nat)
    requires ntokens <= |value| && forall t :: 0 <= t < ntokens ==> value[t] >= 0
    requires off + ntokens <= |a| && froms.Length == tos.Length == |Filled(a, off, ntokens)|
    modifies froms, tos
    ensures FillingOK(value, a, off, less, ntokens, froms[..], tos[..], min, max)
  {
    min, max := MAXSHORT, 0;
    var r, j: nat := 0, 0;
    while j < ntokens
      invariant j <= ntokens && r <= froms.Length && FillingOK(value, a, off, less, j, froms[..r], tos[..r], min, max)
    {
      FilledBelow(a, off, j + 1, ntokens);
      FillingStep(value, a, off, less, j, froms[..r], tos[..r], min, max);
      if a[off + j] != 0 {
        if min > value[j] {
          min := value[j];
        }
        if max < value[j] {
          max := value[j];
        }
        StoreSlot(froms, tos, r, value[j], a[off + j] - less);
        r := r + 1;
      }
      j := j + 1;
    }
    assert froms[..r] == froms[..] && tos[..r] == tos[..];
  }

  /** The filling of one vector: its arrays have exactly the tallied size and are filled up. */
  method FillVector(value: seq<int>, ntokens: nat, a: array<nat>, off: nat, less: nat, count: nat) returns (v: Vector)
    requires ntokens <= |value| && forall t :: 0 <= t < ntokens ==> value[t] >= 0
    requires off + ntokens <= a.Length && count == |Filled(a[..], off, ntokens)|
    ensures RowVector(value, a[..], off, ntokens, less, v) && Tally(v) == count
  {
    var froms := new nat[count];
    var tos := new int[count];
    var min, max := FillLoop(value, ntokens, a[..], off, less, froms, tos);
    if count == 0 {
      v := Vector([], [], 0);
    } else {
      MinIsBelow(froms[..]);
      v := Vector(froms[..], tos[..], max - min + 1);
    }
  }

  /** The vector as filled from the first j slots. */
  ghost predicate FillingOK(value: seq<int>, s: seq<nat>, off: nat, less: nat, j: nat, froms: seq<nat>, tos: seq<int>,
                            min: nat, max: nat) {
    && off + j <= |s| && j <= |value| && |froms| == |Filled(s, off, j)|
    && froms == Keys(value, s, off, j) && tos == Entries(s, off, j, less)
    && min == MinOf(froms) && max == MaxOf(froms)
  }

  lemma FillingStep(value: seq<int>, s: seq<nat>, off: nat, less: nat, j: nat, froms: seq<nat>, tos: seq<int>, min: nat,
                    max: nat)
    requires FillingOK(value, s, off, less, j, froms, tos, min, max) && off + j + 1 <= |s| && j < |value| &&
        value[j] >= 0
    ensures if s[off + j] == 0 then FillingOK(value, s, off, less, j + 1, froms, tos, min, max)
            else |froms| < |Filled(s, off, j + 1)| &&
                 FillingOK(value, s, off, less, j + 1, froms + [value[j]], tos + [s[off + j] - less],
                           if min > value[j] then value[j] else min, if max < value[j] then value[j] else max)
  {
    FilledStep(s, off, j);
    RowStep(value, s, off, j, less);
    SpanSnoc(froms, value[j]);
  }

  lemma {:induction false} KeysLength(value: seq<int>, a: seq<nat>, off: nat, n: nat, less: nat)
    requires off + n <= |a| && n <= |value|
    ensures |Keys(value, a, off, n)| == |Entries(a, off, n, less)|
  {
    if n > 0 {
      KeysLength(value, a, off, n - 1, less);
    }
  }

  ghost predicate SlotAt(value: seq<int>, a: seq<nat>, off: nat, n: nat, less: nat, k: nat, t: nat)
    requires off + n <= |a| && n <= |value|
  {
    && t < n && a[off + t] != 0
    && k < |Keys(value, a, off, n)| && k < |Entries(a, off, n, less)|
    && Keys(value, a, off, n)[k] == value[t] && Entries(a, off, n, less)[k] == a[off + t] - less
  }

  /** Every key of the vector is a slot in use. */
  lemma {:induction false} KeyHasSlot(value: seq<int>, a: seq<nat>, off: nat, n: nat, less: nat, k: nat)
    returns (t: nat)
    requires off + n <= |a| && n <= |value| && k < |Keys(value, a, off, n)|
    ensures SlotAt(value, a, off, n, less, k, t)
  {
    KeysLength(value, a, off, n - 1, less);
    if k < |Keys(value, a, off, n - 1)| {
      t := KeyHasSlot(value, a, off, n - 1, less, k);
    } else {
      t := n - 1;
    }
  }

  /** A slot in use has its key and entry in the vector. */
  lemma {:induction false} SlotHasKey(value: seq<int>, a: seq<nat>, off: nat, n: nat, less: nat, t: nat)
    returns (k: nat)
    requires off + n <= |a| && n <= |value| && t < n && a[off + t] != 0
    ensures SlotAt(value, a, off, n, less, k, t)
  {
    KeysLength(value, a, off, n - 1, less);
    if t < n - 1 {
      k := SlotHasKey(value, a, off, n - 1, less, t);
    } else {
      k := |Keys(value, a, off, n - 1)|;
    }
  }

  ghost predicate Distinct(s: seq<int>) {
    forall k, m :: 0 <= k < m < |s| ==> s[k] != s[m]
  }

  /** Distinct token numbers make distinct keys. */
  lemma {:induction false} KeysDistinct(g: Packed, a: seq<nat>, off: nat, n: nat)
    requires NaturalCodes(g) && n <= g.ntokens && off + n <= |a|
    ensures Distinct(Keys(g.value, a, off, n))
  {
    if n > 0 {
      KeysDistinct(g, a, off, n - 1);
      var s := Keys(g.value, a, off, n - 1);
      forall k | 0 <= k < |s|
        ensures s[k] != g.value[n - 1]
      {
        var t := KeyHasSlot(g.value, a, off, n - 1, 0, k);
        assert g.value[t] != g.value[n - 1];
      }
    }
  }

  /** The slots in use are the tokens counted. */
  lemma SlotsCounted(row: seq<Action>, defred: nat, table: seq<int>, a: seq<nat>, ntokens: nat)
    requires |a| == 3 * ntokens && AllSlots(row, |row|, defred, table, a, ntokens, -1)
    ensures Filled(a, 0, ntokens) == Tokens(row, |row|, defred, ntokens, 0)
    ensures Filled(a, ntokens, ntokens) == Tokens(row, |row|, defred, ntokens, 1)
    ensures Filled(a, 2 * ntokens, ntokens) == Tokens(row, |row|, defred, ntokens, 2)
  {
    forall t: nat | t < ntokens
      ensures InUse(a, 0, t) <==> Counted(row, |row|, t, defred, 0)
      ensures InUse(a, ntokens, t) <==> Counted(row, |row|, t, defred, 1)
      ensures InUse(a, 2 * ntokens, t) <==> Counted(row, |row|, t, defred, 2)
    {
      assert SlotsOK(row, |row|, defred, table, a, ntokens, t, -1);
    }
  }

  /** sv, rv and cv are the packed rows of a state with slots a. */
  ghost predicate StateVectors(value: seq<int>, ntokens: nat, row: seq<Action>, defred: nat, table: seq<int>,
                               a: seq<nat>, sv: Vector, rv: Vector, cv: Vector) {
    && ntokens <= |value| && |a| == 3 * ntokens && AllSlots(row, |row|, defred, table, a, ntokens, -1)
    && RowVector(value, a, 0, ntokens, 0, sv)
    && RowVector(value, a, ntokens, ntokens, 2, rv)
    && RowVector(value, a, 2 * ntokens, ntokens, 1, cv)
  }

  lemma StateVectorsStay(value: seq<int>, ntokens: nat, row: seq<Action>, defred: nat, table: seq<int>,
                         table': seq<int>, a: seq<nat>, sv: Vector, rv: Vector, cv: Vector)
    requires StateVectors(value, ntokens, row, defred, table, a, sv, rv, cv) && table <= table'
    ensures StateVectors(value, ntokens, row, defred, table', a, sv, rv, cv)
  {
    SlotsStay(row, |row|, defred, table, table', a, ntokens, -1);
  }

  /** One state of token_actions. */
  method OneState(value: seq<int>, ntokens: nat, ghost raw: seq<Action>, row: seq<Action>, ghost final: bool,
                  defred: nat, cf: Conflicts) returns (sv: Vector, rv: Vector, cv: Vector, ghost a: seq<nat>)
    requires ntokens <= |value| && forall t :: 0 <= t < ntokens ==> value[t] >= 0
    requires Funded(raw, row, final) && RowFacts(row, ntokens) && OneStands(row) && cf.Idle()
    requires cf.nconflicts + 4 * ConflictCount(raw, final, |raw|) <= cf.conflicts.Length
    modifies cf, cf.conflicts
    ensures cf.Idle() && old(cf.conflicts[..cf.closed]) <= cf.conflicts[..cf.closed]
    ensures cf.nconflicts <= old(cf.nconflicts) + 4 * ConflictCount(raw, final, |raw|)
    ensures StateVectors(value, ntokens, row, defred, cf.conflicts[..cf.closed], a, sv, rv, cv)
  {
    var actionrow := StateActions(raw, row, final, defred, cf, ntokens);
    a := actionrow[..];
    var shiftcount, reducecount, conflictcount := Tallies(row, defred, ntokens);
    SlotsCounted(row, defred, cf.conflicts[..cf.closed], a, ntokens);
    sv := FillVector(value, ntokens, actionrow, 0, 0, shiftcount);
    rv := FillVector(value, ntokens, actionrow, ntokens, 2, reducecount);
    cv := FillVector(value, ntokens, actionrow, 2 * ntokens, 1, conflictcount);
  }

  /** The vectors of the first n states, in a list of three blocks of nstates. */
  ghost predicate StatesDone(value: seq<int>, ntokens: nat, parser: seq<seq<Action>>, defred: seq<nat>, table: seq<int>,
                             slots: seq<seq<nat>>, vs: seq<Vector>, n: nat) {
    && n <= |parser| && |defred| == |parser| && |slots| == n && 3 * |parser| <= |vs|
    && forall q: nat :: q < n ==>
         StateVectors(value, ntokens, parser[q], defred[q], table, slots[q], vs[q], vs[|parser| + q],
             vs[2 * |parser| + q])
  }

  /** What token_actions may rely on about every resolved row. */
  ghost predicate RowsReady(ntokens: nat, raws: seq<seq<Action>>, parser: seq<seq<Action>>, finalState: nat) {
    |raws| == |parser| && forall q: nat :: q < |parser| ==> RowReady(ntokens, raws[q], parser[q], q == finalState)
  }

  ghost predicate RowReady(ntokens: nat, raw: seq<Action>, row: seq<Action>, final: bool) {
    Funded(raw, row, final) && RowFacts(row, ntokens) && OneStands(row)
  }

  lemma {:induction false} SumsGrow(raws: seq<seq<Action>>, finalState: nat, n: nat, m: nat)
    requires n <= m <= |raws|
    ensures SumSR(raws, finalState, n) <= SumSR(raws, finalState, m) &&
        SumRR(raws, finalState, n) <= SumRR(raws, finalState, m)
    decreases m
  {
    if n < m {
      SumsGrow(raws, finalState, n, m - 1);
    }
  }

  lemma StateDone(value: seq<int>, ntokens: nat, parser: seq<seq<Action>>, defred: seq<nat>, table: seq<int>,
                  table': seq<int>, slots: seq<seq<nat>>, vs: seq<Vector>, vs': seq<Vector>, n: nat, a: seq<nat>)
    requires StatesDone(value, ntokens, parser, defred, table, slots, vs, n) && n < |parser| && table <= table' &&
        |vs'| == |vs|
    requires StateVectors(value, ntokens, parser[n], defred[n], table', a, vs'[n], vs'[|parser| + n],
        vs'[2 * |parser| + n])
    requires forall k :: 0 <= k < |vs| && k != n && k != |parser| + n && k != 2 * |parser| + n ==> vs'[k] == vs[k]
    ensures StatesDone(value, ntokens, parser, defred, table', slots + [a], vs', n + 1)
  {
    forall q: nat | q < n
      ensures StateVectors(value, ntokens, parser[q], defred[q], table', slots[q], vs'[q], vs'[|parser| + q],
          vs'[2 * |parser| + q])
    {
      StateVectorsStay(value, ntokens, parser[q], defred[q], table, table', slots[q], vs[q], vs[|parser| + q],
          vs[2 * |parser| + q]);
    }
  }

  method StoreVectors(vs: array<Vector>, i: nat, nstates: nat, sv: Vector, rv: Vector, cv: Vector)
    requires i < nstates && 3 * nstates <= vs.Length
    modifies vs
    ensures vs[i] == sv && vs[nstates + i] == rv && vs[2 * nstates + i] == cv
    ensures forall k :: 0 <= k < vs.Length && k != i && k != nstates + i && k != 2 * nstates + i ==> vs[k] == old(vs[k])
  {
    vs[i] := sv;
    vs[nstates + i] := rv;
    vs[2 * nstates + i] := cv;
  }

  /** One round of the loop over the states. */
  method NextState(value: seq<int>, ntokens: nat, ghost raw: seq<Action>, parser: seq<seq<Action>>, ghost final: bool,
                   defred: seq<nat>, cf: Conflicts, vs: array<Vector>, i: nat, ghost slots: seq<seq<nat>>)
    returns (ghost a: seq<nat>)
    requires ntokens <= |value| && forall t :: 0 <= t < ntokens ==> value[t] >= 0
    requires i < |parser| && RowReady(ntokens, raw, parser[i], final) && cf.Idle()
    requires StatesDone(value, ntokens, parser, defred, cf.conflicts[..cf.closed], slots, vs[..], i)
    requires cf.nconflicts + 4 * ConflictCount(raw, final, |raw|) <= cf.conflicts.Length
    modifies vs, cf, cf.conflicts
    ensures cf.Idle() && cf.nconflicts <= old(cf.nconflicts) + 4 * ConflictCount(raw, final, |raw|)
    ensures StatesDone(value, ntokens, parser, defred, cf.conflicts[..cf.closed], slots + [a], vs[..], i + 1)
    ensures forall k :: 3 * |parser| <= k < vs.Length ==> vs[k] == old(vs[k])
  {
    ghost var table, before := cf.conflicts[..cf.closed], vs[..];
    var sv, rv, cv;
    sv, rv, cv, a := OneState(value, ntokens, raw, parser[i], final, defred[i], cf);
    StoreVectors(vs, i, |parser|, sv, rv, cv);
    StateDone(value, ntokens, parser, defred, table, cf.conflicts[..cf.closed], slots, before, vs[..], i, a);
  }

  /** The conflicts of one more state fit in what is left of the table. */
  lemma StateRoom(ntokens: nat, raws: seq<seq<Action>>, parser: seq<seq<Action>>, finalState: nat, i: nat)
    requires RowsReady(ntokens, raws, parser, finalState) && i < |parser|
    ensures RowReady(ntokens, raws[i], parser[i], i == finalState)
    ensures Total(raws, finalState, i + 1) == Total(raws, finalState, i) +
        ConflictCount(raws[i], i == finalState, |raws[i]|)
    ensures Total(raws, finalState, i + 1) <= Total(raws, finalState, |raws|)
  {
    SumsGrow(raws, finalState, i + 1, |raws|);
  }

  lemma NoneDone(value: seq<int>, ntokens: nat, parser: seq<seq<Action>>, defred: seq<nat>, table: seq<int>,
                 vs: seq<Vector>)
    requires |defred| == |parser| && 3 * |parser| <= |vs|
    ensures StatesDone(value, ntokens, parser, defred, table, [], vs, 0)
  {}

  ghost function Total(raws: seq<seq<Action>>, finalState: nat, n: nat): nat
    requires n <= |raws|
  {
    SumSR(raws, finalState, n) + SumRR(raws, finalState, n)
  }

  /** The loop over the states. */
  method StateLoop(value: seq<int>, ntokens: nat, ghost raws: seq<seq<Action>>, parser: seq<seq<Action>>,
                   ghost finalState: nat, defred: seq<nat>, cf: Conflicts, vs: array<Vector>)
    returns (ghost slots: seq<seq<nat>>)
    requires ntokens <= |value| && forall t :: 0 <= t < ntokens ==> value[t] >= 0
    requires RowsReady(ntokens, raws, parser, finalState) && |defred| == |parser| && 3 * |parser| <= vs.Length
    requires cf.Idle() && cf.nconflicts == 0 && cf.conflicts.Length == 4 * Total(raws, finalState, |raws|)
    modifies vs, cf, cf.conflicts
    ensures cf.Idle() && StatesDone(value, ntokens, parser, defred, cf.conflicts[..cf.closed], slots, vs[..], |parser|)
    ensures forall k :: 3 * |parser| <= k < vs.Length ==> vs[k] == old(vs[k])
  {
    slots := [];
    var i := 0;
    NoneDone(value, ntokens, parser, defred, cf.conflicts[..cf.closed], vs[..]);
    while i < |parser|
      invariant i <= |parser| && cf.Idle()
      invariant StatesDone(value, ntokens, parser, defred, cf.conflicts[..cf.closed], slots, vs[..], i)
      invariant cf.nconflicts <= 4 * Total(raws, finalState, i)
      invariant forall k :: 3 * |parser| <= k < vs.Length ==> vs[k] == old(vs[k])
    {
      StateRoom(ntokens, raws, parser, finalState, i);
      ghost var a := NextState(value, ntokens, raws[i], parser, i == finalState, defred, cf, vs, i, slots);
      slots := slots + [a];
      i := i + 1;
    }
  }

  /** token_actions: the vectors of every state, and the conflict table, within its allotted size. */
  method AllStates(value: seq<int>, ntokens: nat, ghost raws: seq<seq<Action>>, parser: seq<seq<Action>>,
                   ghost finalState: nat, defred: seq<nat>, total: nat, vs: array<Vector>)
    returns (ctable: seq<int>, ghost slots: seq<seq<nat>>)
    requires ntokens <= |value| && forall t :: 0 <= t < ntokens ==> value[t] >= 0
    requires RowsReady(ntokens, raws, parser, finalState) && |defred| == |parser| && 3 * |parser| <= vs.Length
    requires total == Total(raws, finalState, |raws|)
    modifies vs
    ensures StatesDone(value, ntokens, parser, defred, ctable, slots, vs[..], |parser|)
    ensures |ctable| <= 4 * total
    ensures forall k :: 3 * |parser| <= k < vs.Length ==> vs[k] == old(vs[k])
  {
    var cf := new Conflicts(4 * total);
    slots := StateLoop(value, ntokens, raws, parser, finalState, defred, cf, vs);
    ctable := cf.conflicts[..cf.nconflicts];
  }
}

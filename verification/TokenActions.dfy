/** output.c, token_actions: the shift, reduce and conflict rows of every state. */
module TokenActions {
  import opened MkPar
  import opened ConflictTable

  /** The number of the standing shift on token t among the first n actions, or 0. */
  ghost function ShiftOf(row: seq<Action>, n: nat, t: nat): nat
    requires n <= |row|
  {
    if n == 0 then 0
    else if row[n - 1].symbol == t && row[n - 1].suppressed == 0 && row[n - 1].code == Shift then row[n - 1].number
    else ShiftOf(row, n - 1, t)
  }

  /** The number of the standing reduction on t, the default one excepted. */
  ghost function ReduceOf(row: seq<Action>, n: nat, t: nat, defred: nat): nat
    requires n <= |row|
  {
    if n == 0 then 0
    else if row[n - 1].symbol == t && row[n - 1].suppressed == 0 && row[n - 1].code == Reduce &&
        row[n - 1].number != defred
    then row[n - 1].number
    else ReduceOf(row, n - 1, t, defred)
  }

  predicate InConflict(a: Action, t: nat) {
    a.symbol == t && a.suppressed == 1
  }

  predicate Listed(a: Action, t: nat, defred: nat) {
    InConflict(a, t) && (a.code == Shift || a.number != defred)
  }

  /** What the table holds for an alternative: a state to shift to, or a rule as the parser numbers it. */
  function Entry(a: Action): int {
    if a.code == Shift then a.number else a.number - 2
  }

  /** The alternatives on token t, in order. */
  ghost function ListOf(row: seq<Action>, n: nat, t: nat, defred: nat): seq<int>
    requires n <= |row|
  {
    if n == 0 then []
    else ListOf(row, n - 1, t, defred) + (if Listed(row[n - 1], t, defred) then [Entry(row[n - 1])] else [])
  }

  /** The first alternative on t is a reduction. */
  ghost predicate ReduceLeads(row: seq<Action>, n: nat, t: nat, defred: nat)
    requires n <= |row|
  {
    n > 0 && if ListOf(row, n - 1, t, defred) != [] then ReduceLeads(row, n - 1, t, defred)
             else Listed(row[n - 1], t, defred) && row[n - 1].code == Reduce
  }

  ghost predicate AnyConflict(row: seq<Action>, n: nat, t: nat)
    requires n <= |row|
  {
    n > 0 && (InConflict(row[n - 1], t) || AnyConflict(row, n - 1, t))
  }

  /** Slot is one more than a place where the list stands; an empty list may stand anywhere. */
  ghost predicate Kept(table: seq<int>, slot: nat, values: seq<int>, reduceFirst: bool) {
    slot > 0 && (values != [] ==> StandsAt(table, slot - 1, Encoded(values, reduceFirst)))
  }

  /** The three entries of token t after n actions; the list of an open token is still to come. */
  ghost predicate SlotsOK(row: seq<Action>, n: nat, defred: nat, table: seq<int>, a: seq<nat>, ntokens: nat, t: nat,
                          open: int)
    requires n <= |row|
  {
    && t < ntokens && |a| == 3 * ntokens
    && a[t] == ShiftOf(row, n, t) && a[t + ntokens] == ReduceOf(row, n, t, defred)
    && if t == open || !AnyConflict(row, n, t) then a[t + 2 * ntokens] == 0
       else Kept(table, a[t + 2 * ntokens], ListOf(row, n, t, defred), ReduceLeads(row, n, t, defred))
  }

  ghost predicate AllSlots(row: seq<Action>, n: nat, defred: nat, table: seq<int>, a: seq<nat>, ntokens: nat, open: int)
    requires n <= |row|
  {
    forall t: nat :: t < ntokens ==> SlotsOK(row, n, defred, table, a, ntokens, t, open)
  }

  lemma KeptStays(table: seq<int>, table': seq<int>, slot: nat, values: seq<int>, reduceFirst: bool)
    requires table <= table' && Kept(table, slot, values, reduceFirst)
    ensures Kept(table', slot, values, reduceFirst)
  {
    if values != [] {
      StandsStays(table, table', |table|, slot - 1, Encoded(values, reduceFirst));
    }
  }

  ghost predicate SymbolsAscend(row: seq<Action>) {
    forall p, q :: 0 <= p < q < |row| ==> row[p].symbol <= row[q].symbol
  }

  /** Nothing of token t is met before its first action. */
  lemma {:induction false} Untold(row: seq<Action>, n: nat, t: nat, defred: nat)
    requires n <= |row| && forall p :: 0 <= p < n ==> row[p].symbol != t
    ensures ShiftOf(row, n, t) == 0 && ReduceOf(row, n, t, defred) == 0
    ensures ListOf(row, n, t, defred) == [] && !AnyConflict(row, n, t) && !ReduceLeads(row, n, t, defred)
  {
    if n > 0 {
      Untold(row, n - 1, t, defred);
    }
  }

  lemma {:induction false} ListIsNatural(row: seq<Action>, n: nat, t: nat, defred: nat)
    requires n <= |row| && forall a :: a in row && a.code == Reduce ==> a.number >= 2
    ensures NonNegative(ListOf(row, n, t, defred))
    ensures ListOf(row, n, t, defred) != [] ==> AnyConflict(row, n, t)
    ensures ReduceLeads(row, n, t, defred) ==> ListOf(row, n, t, defred) != []
  {
    if n > 0 {
      ListIsNatural(row, n - 1, t, defred);
      assert row[n - 1] in row;
    }
  }

  /** Step for a token the new action is not about. */
  lemma OtherToken(row: seq<Action>, n: nat, t: nat, defred: nat)
    requires n < |row| && row[n].symbol != t
    ensures ShiftOf(row, n + 1, t) == ShiftOf(row, n, t) &&
        ReduceOf(row, n + 1, t, defred) == ReduceOf(row, n, t, defred)
    ensures ListOf(row, n + 1, t, defred) == ListOf(row, n, t, defred)
    ensures AnyConflict(row, n + 1, t) == AnyConflict(row, n, t)
    ensures ReduceLeads(row, n + 1, t, defred) == ReduceLeads(row, n, t, defred)
  {
    if n > 0 && ListOf(row, n, t, defred) == [] {
      NoLead(row, n, t, defred);
    }
  }

  lemma {:induction false} NoLead(row: seq<Action>, n: nat, t: nat, defred: nat)
    requires n <= |row| && ListOf(row, n, t, defred) == []
    ensures !ReduceLeads(row, n, t, defred)
  {
    if n > 0 {
      NoLead(row, n - 1, t, defred);
    }
  }

  ghost predicate RowFacts(row: seq<Action>, ntokens: nat) {
    && SymbolsAscend(row)
    && (forall a :: a in row ==>
        a.symbol < ntokens && (a.code == Reduce ==> a.number >= 2) && (a.code == Shift ==> a.number >= 1))
  }

  /** Between actions: csym is the token whose list is open, and everything else is in the rows. */
  ghost predicate Working(row: seq<Action>, p: nat, defred: nat, cf: Conflicts, a: array<nat>, ntokens: nat, csym: int)
    reads cf, cf.conflicts, a
    requires p <= |row|
  {
    && RowFacts(row, ntokens) && a.Length == 3 * ntokens && cf.Open() && -1 <= csym
    && (csym == -1 ==> cf.Idle())
    && (csym >= 0 ==> p > 0 && row[p - 1].symbol == csym && AnyConflict(row, p, csym)
                      && cf.values == ListOf(row, p, csym, defred) &&
                          cf.reduceFirst == ReduceLeads(row, p, csym, defred))
    && (csym == -1 && p < |row| ==> !AnyConflict(row, p, row[p].symbol))
    && AllSlots(row, p, defred, cf.conflicts[..cf.closed], a[..], ntokens, csym)
  }

  lemma SlotsStay(row: seq<Action>, n: nat, defred: nat, table: seq<int>, table': seq<int>, a: seq<nat>, ntokens: nat,
                  open: int)
    requires n <= |row| && table <= table' && AllSlots(row, n, defred, table, a, ntokens, open)
    ensures AllSlots(row, n, defred, table', a, ntokens, open)
  {
    forall t: nat | t < ntokens
      ensures SlotsOK(row, n, defred, table', a, ntokens, t, open)
    {
      assert SlotsOK(row, n, defred, table, a, ntokens, t, open);
      if t != open && AnyConflict(row, n, t) {
        KeptStays(table, table', a[t + 2 * ntokens], ListOf(row, n, t, defred), ReduceLeads(row, n, t, defred));
      }
    }
  }

  /** The open token's list, closed, is what its conflict entry points to. */
  lemma CloseSlot(row: seq<Action>, n: nat, defred: nat, table: seq<int>, a: seq<nat>, ntokens: nat, csym: nat, j: nat)
    requires n <= |row| && AllSlots(row, n, defred, table, a, ntokens, csym) && csym < ntokens && |a| == 3 * ntokens
    requires AnyConflict(row, n, csym) && Kept(table, j + 1, ListOf(row, n, csym, defred),
        ReduceLeads(row, n, csym, defred))
    ensures AllSlots(row, n, defred, table, a[csym + 2 * ntokens := j + 1], ntokens, -1)
  {
    var a' := a[csym + 2 * ntokens := j + 1];
    forall t: nat | t < ntokens
      ensures SlotsOK(row, n, defred, table, a', ntokens, t, -1)
    {
      assert SlotsOK(row, n, defred, table, a, ntokens, t, csym);
    }
  }

  /** Closing the list of csym and noting where it is. */
  method CloseToken(row: seq<Action>, p: nat, defred: nat, cf: Conflicts, a: array<nat>, ntokens: nat, csym: nat)
    requires p <= |row| && Working(row, p, defred, cf, a, ntokens, csym) && cf.nconflicts < cf.conflicts.Length
    modifies cf, cf.conflicts, a
    ensures a.Length == 3 * ntokens && cf.Idle() && cf.nconflicts <= old(cf.nconflicts) + 1
    ensures AllSlots(row, p, defred, cf.conflicts[..cf.closed], a[..], ntokens, -1)
    ensures old(cf.conflicts[..cf.closed]) <= cf.conflicts[..cf.closed]
  {
    ghost var table := cf.conflicts[..cf.closed];
    assert row[p - 1] in row;
    var j := cf.Close();
    ghost var table' := cf.conflicts[..cf.closed];
    assert table == table'[..|table|];
    SlotsStay(row, p, defred, table, table', a[..], ntokens, csym);
    CloseSlot(row, p, defred, table', a[..], ntokens, csym, j);
    a[csym + 2 * ntokens] := j + 1;
  }

  /** One standing action enters its row; others change nothing there. */
  lemma StandSlot(row: seq<Action>, n: nat, defred: nat, table: seq<int>, a: seq<nat>, ntokens: nat, open: int, k: nat)
    requires n < |row| && AllSlots(row, n, defred, table, a, ntokens, open) && |a| == 3 * ntokens &&
        row[n].symbol < ntokens
    requires row[n].suppressed != 1
    requires k == (if row[n].code == Shift then row[n].symbol else row[n].symbol + ntokens)
    ensures var a' := if row[n].suppressed == 0 && (row[n].code == Shift || row[n].number != defred) then
        a[k := row[n].number] else a;
            AllSlots(row, n + 1, defred, table, a', ntokens, open)
  {
    var a' := if row[n].suppressed == 0 && (row[n].code == Shift || row[n].number != defred) then a[k := row[n].number]
        else a;
    var n' := n + 1;
    forall t: nat | t < ntokens
      ensures SlotsOK(row, n', defred, table, a', ntokens, t, open)
    {
      assert SlotsOK(row, n, defred, table, a, ntokens, t, open);
      if t != row[n].symbol {
        OtherToken(row, n, t, defred);
      } else {
        SameTokenStanding(row, n, t, defred);
      }
    }
  }

  lemma SameTokenStanding(row: seq<Action>, n: nat, t: nat, defred: nat)
    requires n < |row| && row[n].symbol == t && row[n].suppressed != 1
    ensures ListOf(row, n + 1, t, defred) == ListOf(row, n, t, defred)
    ensures AnyConflict(row, n + 1, t) == AnyConflict(row, n, t)
    ensures ReduceLeads(row, n + 1, t, defred) == ReduceLeads(row, n, t, defred)
  {
    if ListOf(row, n, t, defred) == [] {
      NoLead(row, n, t, defred);
    }
  }

  /** An action in conflict opens or extends the list of its token. */
  lemma ConflictSlot(row: seq<Action>, n: nat, defred: nat, table: seq<int>, a: seq<nat>, ntokens: nat, open: int)
    requires n < |row| && AllSlots(row, n, defred, table, a, ntokens, open) && row[n].suppressed == 1
    requires if open == -1 then !AnyConflict(row, n, row[n].symbol) else open == row[n].symbol
    ensures AllSlots(row, n + 1, defred, table, a, ntokens, row[n].symbol)
  {
    var n' := n + 1;
    forall t: nat | t < ntokens
      ensures SlotsOK(row, n', defred, table, a, ntokens, t, row[n].symbol)
    {
      assert SlotsOK(row, n, defred, table, a, ntokens, t, open);
      if t != row[n].symbol {
        OtherToken(row, n, t, defred);
      }
    }
  }

  /** What comes after action p has no earlier conflict unless it is about the same token. */
  lemma NextIsFresh(row: seq<Action>, n: nat, defred: nat, open: int)
    requires n < |row| && SymbolsAscend(row)
    requires !AnyConflict(row, n + 1, row[n].symbol)
    ensures n + 1 < |row| ==> !AnyConflict(row, n + 1, row[n + 1].symbol)
  {
    if n + 1 < |row| && row[n + 1].symbol != row[n].symbol {
      Untold(row, n + 1, row[n + 1].symbol, defred);
    }
  }

  /** The body of the action loop after any closing: the rows or the open list take the action. */
  method TakeAction(row: seq<Action>, p: nat, defred: nat, cf: Conflicts, a: array<nat>, ntokens: nat, csym0: int)
    returns (csym: int)
    requires p < |row| && Working(row, p, defred, cf, a, ntokens, csym0)
    requires row[p].suppressed == 1 ==> cf.nconflicts + 1 < cf.conflicts.Length
    requires csym0 >= 0 ==> csym0 == row[p].symbol
    modifies cf, cf.conflicts, a
    ensures Working(row, p + 1, defred, cf, a, ntokens, csym)
    ensures cf.conflicts[..cf.closed] == old(cf.conflicts[..cf.closed]) && cf.closed == old(cf.closed)
    ensures row[p].suppressed == 1 ==>
              csym == row[p].symbol && cf.nconflicts <= old(cf.nconflicts) + (if old(cf.values) == [] then 2 else 1)
    ensures row[p].suppressed != 1 ==> cf.nconflicts == old(cf.nconflicts) && csym == csym0
    ensures csym >= 0 ==> csym == row[p].symbol
    ensures cf.values == [] ==> cf.nconflicts == old(cf.nconflicts) && old(cf.values) == []
    ensures row[p].suppressed != 1 ==> cf.values == old(cf.values)
    ensures csym == -1 ==> cf.values == []
  {
    hide AllSlots, SymbolsAscend, Encoded, StandsAt;
    assert row[p] in row;
    csym := csym0;
    var act := row[p];
    ghost var table := cf.conflicts[..cf.closed];
    if act.suppressed == 0 {
      StandSlot(row, p, defred, table, a[..], ntokens, csym, if act.code == Shift then act.symbol
          else act.symbol + ntokens);
      SameTokenStanding(row, p, act.symbol, defred);
      ghost var before := a[..];
      if act.code == Shift {
        a[act.symbol] := act.number;
      } else if act.code == Reduce && act.number != defred {
        a[act.symbol + ntokens] := act.number;
      }
      if csym == -1 {
        NextIsFresh(row, p, defred, csym);
      }
    } else if act.suppressed == 1 {
      ConflictSlot(row, p, defred, table, a[..], ntokens, csym);
      csym := act.symbol;
      ListStep(row, p, act.symbol, defred);
      if act.code == Shift {
        cf.AddShift(act.number);
      } else if act.code == Reduce && act.number != defred {
        cf.AddReduce(act.number - 2);
      }
    } else {
      StandSlot(row, p, defred, table, a[..], ntokens, csym, if act.code == Shift then act.symbol
          else act.symbol + ntokens);
      SameTokenStanding(row, p, act.symbol, defred);
      if csym == -1 {
        NextIsFresh(row, p, defred, csym);
      }
    }
  }

  lemma ListStep(row: seq<Action>, n: nat, t: nat, defred: nat)
    requires n < |row| && InConflict(row[n], t)
    ensures AnyConflict(row, n + 1, t)
    ensures ListOf(row, n + 1, t, defred) == ListOf(row, n, t, defred) +
        (if Listed(row[n], t, defred) then [Entry(row[n])] else [])
    ensures !AnyConflict(row, n, t) ==> ListOf(row, n, t, defred) == []
    ensures ListOf(row, n, t, defred) != [] ==> ReduceLeads(row, n + 1, t, defred) == ReduceLeads(row, n, t, defred)
    ensures ListOf(row, n, t, defred) == [] ==>
        (ReduceLeads(row, n + 1, t, defred) <==> Listed(row[n], t, defred) && row[n].code == Reduce)
  {
    if !AnyConflict(row, n, t) {
      NoConflictNoList(row, n, t, defred);
    }
  }

  lemma {:induction false} NoConflictNoList(row: seq<Action>, n: nat, t: nat, defred: nat)
    requires n <= |row| && !AnyConflict(row, n, t)
    ensures ListOf(row, n, t, defred) == []
  {
    if n > 0 {
      NoConflictNoList(row, n - 1, t, defred);
    }
  }

  lemma {:induction false} OnesGrow(cur: seq<Action>, n: nat, m: nat)
    requires n <= m <= |cur|
    ensures Ones(cur, n) <= Ones(cur, m)
    decreases m
  {
    if n < m {
      OnesGrow(cur, n, m - 1);
    }
  }

  /** Where the run that starts at h ends. */
  lemma {:induction false} RunEnd(row: seq<Action>, h: nat, m: nat) returns (e: nat)
    requires RunFrom(row, h, m)
    ensures m <= e && WholeRun(row, h, e)
    decreases |row| - m
  {
    if m == |row| || Head(row, m) == m {
      e := m;
    } else {
      assert Head(row, m) == Head(row, m - 1);
      e := RunEnd(row, h, m + 1);
    }
  }

  /** What the conflict table has taken up before action p, in the run from h: four places per
      counted conflict of the earlier tokens, and the open list. */
  ghost predicate Spent(raw: seq<Action>, row: seq<Action>, final: bool, p: nat, h: nat, start: nat, used: nat,
                        csym: int, empty: bool)
    requires h <= p <= |raw| == |row|
  {
    if csym == -1 then used <= start + 4 * ConflictCount(raw, final, h) && Ones(row, p) == Ones(row, h)
    else Ones(row, p) > Ones(row, h)
         && used <= start + 4 * ConflictCount(raw, final, h) + (Ones(row, p) - Ones(row, h)) + (if empty then 0 else 1)
  }

  ghost predicate InRunOf(raw: seq<Action>, h: nat, p: nat) {
    h <= p < |raw| && Head(raw, p) == h && (h < p ==> RunFrom(raw, h, p))
  }

  ghost predicate Budget(raw: seq<Action>, row: seq<Action>, final: bool, p: nat, h: nat, start: nat, used: nat,
                         csym: int, empty: bool)
    requires p <= |raw| == |row|
  {
    if p == 0 then h == 0 && csym == -1 && used <= start
    else h < p && RunFrom(raw, h, p) && Spent(raw, row, final, p, h, start, used, csym, empty)
  }

  /** A token's conflict list leaves room for its terminator and a leading mark. */
  lemma RunRoom(raw: seq<Action>, row: seq<Action>, final: bool, h: nat, p: nat)
    requires Judged(raw, final, |raw|, row) && p < |row| && RunFrom(raw, h, p + 1) && row[p].suppressed == 1
    ensures Ones(row, p) - Ones(row, h) + 3 <= 4 * (ConflictCount(raw, final, |raw|) - ConflictCount(raw, final, h))
  {
    var e := RunEnd(raw, h, p + 1);
    RunBudget(raw, final, row, h, e);
    OnesGrow(row, p + 1, e);
    OnesGrow(row, h, p);
    ConflictsGrow(raw, final, e, |raw|);
  }

  lemma RunFromSnoc(raw: seq<Action>, h: nat, p: nat)
    requires p < |raw| && h <= p && Head(raw, p) == h && (h < p ==> RunFrom(raw, h, p))
    ensures RunFrom(raw, h, p + 1)
  {}

  /** What the counted conflicts of a state pay for: every token's list with its terminator and
      leading mark, whole or in part. */
  ghost predicate Funded(raw: seq<Action>, row: seq<Action>, final: bool) {
    && |raw| == |row|
    && (forall p {:trigger row[p]} :: 0 <= p < |row| ==> row[p].symbol == raw[p].symbol)
    && (forall h: nat, p: nat {:trigger InRunOf(raw, h, p)} :: InRunOf(raw, h, p) && row[p].suppressed == 1 ==>
          Ones(row, p) - Ones(row, h) + 3 <= 4 * (ConflictCount(raw, final, |raw|) - ConflictCount(raw, final, h)))
    && (forall h: nat, p: nat {:trigger WholeRun(raw, h, p)} :: WholeRun(raw, h, p) && Ones(row, p) > Ones(row, h) ==>
          Ones(row, p) - Ones(row, h) + 2 <= 4 * (ConflictCount(raw, final, p) - ConflictCount(raw, final, h)))
  }

  lemma JudgedIsFunded(raw: seq<Action>, row: seq<Action>, final: bool)
    requires Judged(raw, final, |raw|, row)
    ensures Funded(raw, row, final)
  {
    forall h: nat, p: nat | InRunOf(raw, h, p) && row[p].suppressed == 1
      ensures Ones(row, p) - Ones(row, h) + 3 <= 4 * (ConflictCount(raw, final, |raw|) - ConflictCount(raw, final, h))
    {
      RunFromSnoc(raw, h, p);
      RunRoom(raw, row, final, h, p);
    }
    forall h: nat, p: nat | WholeRun(raw, h, p) && Ones(row, p) > Ones(row, h)
      ensures Ones(row, p) - Ones(row, h) + 2 <= 4 * (ConflictCount(raw, final, p) - ConflictCount(raw, final, h))
    {
      RunBudget(raw, final, row, h, p);
    }
  }

  /** A finished token has been paid for. */
  lemma BudgetAtEnd(raw: seq<Action>, row: seq<Action>, final: bool, p: nat, h: nat, start: nat, used: nat, csym: int,
                    empty: bool)
    requires p <= |raw| && Funded(raw, row, final) && Budget(raw, row, final, p, h, start, used, csym, empty)
    requires p > 0 ==> WholeRun(raw, h, p)
    ensures used + (if csym == -1 then 0 else 1) <= start + 4 * ConflictCount(raw, final, p)
    ensures ConflictCount(raw, final, p) <= ConflictCount(raw, final, |raw|)
  {
    ConflictsGrow(raw, final, p, |raw|);
    if p > 0 {
      OnesGrow(row, h, p);
      ConflictsGrow(raw, final, h, p);
    }
  }

  /** There is room for one more entry of the open token. */
  lemma BudgetRoom(raw: seq<Action>, row: seq<Action>, final: bool, p: nat, h: nat, start: nat, used: nat, csym: int,
                   empty: bool)
    requires p < |raw| == |row| && Funded(raw, row, final) && row[p].suppressed == 1
    requires InRunOf(raw, h, p) && Spent(raw, row, final, p, h, start, used, csym, empty)
    ensures used + 1 < start + 4 * ConflictCount(raw, final, |raw|)
  {
    OnesGrow(row, h, p);
  }

  lemma BudgetStep(raw: seq<Action>, row: seq<Action>, final: bool, p: nat, h: nat, start: nat, used: nat, csym: int,
                   empty: bool, used': nat, csym': int, empty': bool)
    requires p < |raw| == |row| && InRunOf(raw, h, p) && Spent(raw, row, final, p, h, start, used, csym, empty)
    requires if row[p].suppressed == 1 then csym' != -1 && used' <= used + (if empty then 2 else 1) &&
        (csym == -1 ==> empty)
             else csym' == csym && used' == used && empty' == empty
    requires empty' ==> used' == used && (empty || csym == -1)
    ensures Budget(raw, row, final, p + 1, h, start, used', csym', empty')
  {
    RunFromSnoc(raw, h, p);
    OnesGrow(row, h, p);
  }

  /** The run at p: the old one goes on, or a new one starts and the old one is whole. */
  lemma RunAt(raw: seq<Action>, row: seq<Action>, p: nat, h: nat) returns (h': nat)
    requires p < |raw| == |row| && (if p == 0 then h == 0 else RunFrom(raw, h, p))
    ensures InRunOf(raw, h', p)
    ensures p > 0 && raw[p].symbol == raw[p - 1].symbol ==> h' == h
    ensures p == 0 || raw[p].symbol != raw[p - 1].symbol ==> h' == p && (p > 0 ==> WholeRun(raw, h, p))
  {
    h' := if p == 0 || raw[p].symbol != raw[p - 1].symbol then p else h;
    assert p > 0 ==> Head(raw, p - 1) == h;
  }

  /** The list of an earlier token is closed when action p is about another one. */
  method CloseIfDone(ghost raw: seq<Action>, row: seq<Action>, ghost final: bool, p: nat, defred: nat, cf: Conflicts,
                     a: array<nat>, ntokens: nat, csym0: int, ghost h0: nat, ghost start: nat)
    returns (csym: int, ghost h: nat)
    requires p < |row| && Funded(raw, row, final)
    requires Working(row, p, defred, cf, a, ntokens, csym0)
    requires Budget(raw, row, final, p, h0, start, cf.nconflicts, csym0, cf.values == [])
    requires start + 4 * ConflictCount(raw, final, |raw|) <= cf.conflicts.Length
    modifies cf, cf.conflicts, a
    ensures Working(row, p, defred, cf, a, ntokens, csym) && (csym >= 0 ==> csym == row[p].symbol)
    ensures old(cf.conflicts[..cf.closed]) <= cf.conflicts[..cf.closed]
    ensures InRunOf(raw, h, p) && Spent(raw, row, final, p, h, start, cf.nconflicts, csym, cf.values == [])
  {
    hide Funded, Budget, Spent, InRunOf, AllSlots, ListOf, ReduceLeads;
    csym := csym0;
    h := RunOn(raw, row, final, p, h0, start, cf.nconflicts, csym, cf.values == []);
    if csym != -1 && csym != row[p].symbol {
      CloseToken(row, p, defred, cf, a, ntokens, csym);
      csym := -1;
      Untold(row, p, row[p].symbol, defred);
      SpentAfresh(raw, row, final, p, start, cf.nconflicts, cf.values == []);
    }
  }

  /** The run of action p, and what the budget says there: it is as before, or a new run starts and
      what was spent is paid for. */
  lemma RunOn(raw: seq<Action>, row: seq<Action>, final: bool, p: nat, h0: nat, start: nat, used: nat, csym: int,
              empty: bool) returns (h: nat)
    requires p < |row| && Funded(raw, row, final) && Budget(raw, row, final, p, h0, start, used, csym, empty)
    requires csym >= 0 ==> p > 0 && row[p - 1].symbol == csym
    requires csym >= -1
    ensures p < |raw| == |row| && InRunOf(raw, h, p) && ConflictCount(raw, final, p) <= ConflictCount(raw, final, |raw|)
    ensures h == p ==> used + (if csym == -1 then 0 else 1) <= start + 4 * ConflictCount(raw, final, p)
    ensures csym >= 0 && csym != row[p].symbol ==> h == p
    ensures csym == -1 || csym == row[p].symbol ==> Spent(raw, row, final, p, h, start, used, csym, empty)
  {
    h := RunAt(raw, row, p, h0);
    assert p > 0 ==> raw[p].symbol == row[p].symbol && raw[p - 1].symbol == row[p - 1].symbol;
    ConflictsGrow(raw, final, p, |raw|);
    if h == p {
      BudgetAtEnd(raw, row, final, p, h0, start, used, csym, empty);
    }
  }

  lemma SpentAfresh(raw: seq<Action>, row: seq<Action>, final: bool, p: nat, start: nat, used: nat, empty: bool)
    requires p <= |raw| == |row| && used <= start + 4 * ConflictCount(raw, final, p)
    ensures Spent(raw, row, final, p, p, start, used, -1, empty)
  {}

  /** The rows before the first action. */
  lemma NoSlots(row: seq<Action>, defred: nat, table: seq<int>, a: seq<nat>, ntokens: nat)
    requires |a| == 3 * ntokens && forall k :: 0 <= k < |a| ==> a[k] == 0
    ensures AllSlots(row, 0, defred, table, a, ntokens, -1)
  {}

  /** The closing after the action loop. */
  method CloseLast(ghost raw: seq<Action>, row: seq<Action>, ghost final: bool, p: nat, defred: nat, cf: Conflicts,
                   a: array<nat>, ntokens: nat, csym: int, ghost h: nat, ghost start: nat)
    requires p == |row| && Funded(raw, row, final) && Working(row, p, defred, cf, a, ntokens, csym)
    requires Budget(raw, row, final, p, h, start, cf.nconflicts, csym, cf.values == [])
    requires start + 4 * ConflictCount(raw, final, |raw|) <= cf.conflicts.Length
    modifies cf, cf.conflicts, a
    ensures cf.Idle() && a.Length == 3 * ntokens
    ensures AllSlots(row, |row|, defred, cf.conflicts[..cf.closed], a[..], ntokens, -1)
    ensures old(cf.conflicts[..cf.closed]) <= cf.conflicts[..cf.closed]
    ensures cf.nconflicts <= start + 4 * ConflictCount(raw, final, |raw|)
  {
    RunAtEnd(raw, row, final, p, h, start, cf.nconflicts, csym, cf.values == []);
    BudgetAtEnd(raw, row, final, p, h, start, cf.nconflicts, csym, cf.values == []);
    if csym != -1 {
      CloseToken(row, p, defred, cf, a, ntokens, csym);
    }
  }

  /** The action loop of token_actions for one state, on cleared rows. */
  method ActionLoop(ghost raw: seq<Action>, row: seq<Action>, ghost final: bool, defred: nat, cf: Conflicts,
                    a: array<nat>, ntokens: nat)
    requires Funded(raw, row, final) && Working(row, 0, defred, cf, a, ntokens, -1)
    requires cf.nconflicts + 4 * ConflictCount(raw, final, |raw|) <= cf.conflicts.Length
    modifies cf, cf.conflicts, a
    ensures a.Length == 3 * ntokens && cf.Idle()
    ensures AllSlots(row, |row|, defred, cf.conflicts[..cf.closed], a[..], ntokens, -1)
    ensures old(cf.conflicts[..cf.closed]) <= cf.conflicts[..cf.closed]
    ensures cf.nconflicts <= old(cf.nconflicts) + 4 * ConflictCount(raw, final, |raw|)
  {
    hide Working, Budget, Funded, AllSlots;
    WorkingFits(row, 0, defred, cf, a, ntokens, -1);
    ghost var start := cf.nconflicts;
    ghost var table0 := cf.conflicts[..cf.closed];
    var csym: int := -1;
    var p := 0;
    ghost var h := 0;
    BudgetStarts(raw, row, final, start, cf.values == []);
    while p < |row|
      invariant p <= |row| && Working(row, p, defred, cf, a, ntokens, csym)
      invariant cf.closed <= cf.conflicts.Length && table0 <= cf.conflicts[..cf.closed]
      invariant Budget(raw, row, final, p, h, start, cf.nconflicts, csym, cf.values == [])
    {
      csym, h := NextAction(raw, row, final, p, defred, cf, a, ntokens, csym, h, start);
      p := p + 1;
      WorkingFits(row, p, defred, cf, a, ntokens, csym);
    }
    CloseLast(raw, row, final, p, defred, cf, a, ntokens, csym, h, start);
  }

  lemma WorkingFits(row: seq<Action>, p: nat, defred: nat, cf: Conflicts, a: array<nat>, ntokens: nat, csym: int)
    requires p <= |row| && Working(row, p, defred, cf, a, ntokens, csym)
    ensures cf.closed <= cf.conflicts.Length && a.Length == 3 * ntokens
  {}

  lemma BudgetStarts(raw: seq<Action>, row: seq<Action>, final: bool, start: nat, empty: bool)
    requires Funded(raw, row, final)
    ensures |raw| == |row| && Budget(raw, row, final, 0, 0, start, start, -1, empty)
  {}

  /** The part of token_actions that fills the rows of one state. */
  method StateActions(ghost raw: seq<Action>, row: seq<Action>, ghost final: bool, defred: nat, cf: Conflicts,
                      ntokens: nat) returns (a: array<nat>)
    requires Funded(raw, row, final) && RowFacts(row, ntokens) && cf.Idle()
    requires cf.nconflicts + 4 * ConflictCount(raw, final, |raw|) <= cf.conflicts.Length
    modifies cf, cf.conflicts
    ensures fresh(a) && a.Length == 3 * ntokens && cf.Idle()
    ensures AllSlots(row, |row|, defred, cf.conflicts[..cf.closed], a[..], ntokens, -1)
    ensures old(cf.conflicts[..cf.closed]) <= cf.conflicts[..cf.closed]
    ensures cf.nconflicts <= old(cf.nconflicts) + 4 * ConflictCount(raw, final, |raw|)
  {
    a := new nat[3 * ntokens](_ => 0);
    NoSlots(row, defred, cf.conflicts[..cf.closed], a[..], ntokens);
    assert cf.conflicts[cf.cbase..cf.nconflicts] == [];
    ActionLoop(raw, row, final, defred, cf, a, ntokens);
  }

  lemma RunAtEnd(raw: seq<Action>, row: seq<Action>, final: bool, p: nat, h: nat, start: nat, used: nat, csym: int,
                 empty: bool)
    requires p == |raw| == |row| && Budget(raw, row, final, p, h, start, used, csym, empty)
    ensures p > 0 ==> WholeRun(raw, h, p)
  {}

  /** One round of the loop: a closing when the token changes, then the action. */
  method NextAction(ghost raw: seq<Action>, row: seq<Action>, ghost final: bool, p: nat, defred: nat, cf: Conflicts,
                    a: array<nat>, ntokens: nat, csym0: int, ghost h0: nat, ghost start: nat)
    returns (csym: int, ghost h: nat)
    requires p < |row| && Funded(raw, row, final)
    requires Working(row, p, defred, cf, a, ntokens, csym0)
    requires Budget(raw, row, final, p, h0, start, cf.nconflicts, csym0, cf.values == [])
    requires start + 4 * ConflictCount(raw, final, |raw|) <= cf.conflicts.Length
    modifies cf, cf.conflicts, a
    ensures Working(row, p + 1, defred, cf, a, ntokens, csym)
    ensures old(cf.conflicts[..cf.closed]) <= cf.conflicts[..cf.closed]
    ensures Budget(raw, row, final, p + 1, h, start, cf.nconflicts, csym, cf.values == [])
  {
    csym, h := CloseIfDone(raw, row, final, p, defred, cf, a, ntokens, csym0, h0, start);
    if row[p].suppressed == 1 {
      BudgetRoom(raw, row, final, p, h, start, cf.nconflicts, csym, cf.values == []);
    }
    ghost var csym1, used1, empty1 := csym, cf.nconflicts, cf.values == [];
    csym := TakeAction(row, p, defred, cf, a, ntokens, csym);
    BudgetStep(raw, row, final, p, h, start, used1, csym1, empty1, cf.nconflicts, csym, cf.values == []);
  }
}

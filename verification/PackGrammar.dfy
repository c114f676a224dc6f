/** reader.c, pack_grammar: the rules as read, laid down in the encoding all later stages share. */
module PackGrammar {
  import opened Defs
  import opened Grammar
  import opened MkPar
  import opened Reader

  /** What the buckets say when the grammar is packed: the number every symbol gets, and whether it
      is a token, with what precedence. */
  datatype Symbols = Symbols(index: seq<nat>, ntokens: nat, nsyms: nat, prec: seq<int>, assoc: seq<Assoc>) {
    ghost predicate OK() {
      && 1 <= ntokens && ntokens + 2 <= nsyms && |index| == |prec| == |assoc| > 0
      && forall x :: 1 <= x < |index| ==> 1 <= index[x] < nsyms && index[x] != ntokens
    }

    predicate IsTerm(x: nat)
      requires x < |index|
    {
      index[x] < ntokens
    }
  }

  ghost predicate Known(S: Symbols, s: seq<nat>) {
    forall k :: 0 <= k < |s| ==> 1 <= s[k] < |S.index|
  }

  ghost function Indexed(S: Symbols, s: seq<nat>): seq<int>
    requires Known(S, s)
  {
    seq(|s|, k requires 0 <= k < |s| => S.index[s[k]])
  }

  ghost predicate AllKnown(S: Symbols, closed: seq<seq<nat>>) {
    forall j :: 0 <= j < |closed| ==> Known(S, closed[j])
  }

  /** The items of the start rule and of the first n rules. */
  ghost function ItemsFor(S: Symbols, goal: nat, closed: seq<seq<nat>>, n: nat): seq<int>
    requires n <= |closed| && AllKnown(S, closed) && goal < |S.index|
  {
    if n == 0 then [-1, S.index[goal], 0, -2]
    else ItemsFor(S, goal, closed, n - 1) + Indexed(S, closed[n - 1]) + [-(n + 2)]
  }

  /** Place k of s holds a token, and no later one does. */
  ghost predicate LastTokenAt(S: Symbols, s: seq<nat>, k: int)
    requires Known(S, s)
  {
    0 <= k < |s| && S.IsTerm(s[k]) && forall l :: k < l < |s| ==> !S.IsTerm(s[l])
  }

  /** prec and assoc are those of the last token of s; without a token there are none. */
  ghost predicate OfLastToken(S: Symbols, s: seq<nat>, prec: int, assoc: Assoc)
    requires Known(S, s) && |S.prec| == |S.assoc| == |S.index|
  {
    && (forall k :: LastTokenAt(S, s, k) ==> prec == S.prec[s[k]] && assoc == S.assoc[s[k]])
    && ((forall k :: 0 <= k < |s| ==> !S.IsTerm(s[k])) ==> prec == 0 && assoc == Token)
  }

  /** As the loop goes: last is the place of the last token among the first j symbols, -1 for none. */
  ghost predicate LastSoFar(S: Symbols, s: seq<nat>, j: nat, last: int, prec: int, assoc: Assoc)
    requires Known(S, s) && |S.prec| == |S.assoc| == |S.index| && j <= |s|
  {
    && -1 <= last < j && (forall l :: last < l < j ==> !S.IsTerm(s[l]))
    && if last == -1 then prec == 0 && assoc == Token
       else S.IsTerm(s[last]) && prec == S.prec[s[last]] && assoc == S.assoc[s[last]]
  }

  lemma LastOfAll(S: Symbols, s: seq<nat>, last: int, prec: int, assoc: Assoc)
    requires Known(S, s) && |S.prec| == |S.assoc| == |S.index| && LastSoFar(S, s, |s|, last, prec, assoc)
    ensures OfLastToken(S, s, prec, assoc)
  {
    forall k | LastTokenAt(S, s, k)
      ensures k == last
    {
    }
  }

  lemma {:induction false} FlatSplit(closed: seq<seq<nat>>, i: nat) returns (rest: seq<nat>)
    requires i < |closed|
    ensures Flat(closed) == Flat(closed[..i]) + closed[i] + [0] + rest
    decreases |closed|
  {
    var n := |closed| - 1;
    if i == n {
      rest := [];
      assert closed[..n] == closed[..i];
    } else {
      rest := FlatSplit(closed[..n], i);
      assert closed[..n][..i] == closed[..i];
      rest := rest + closed[n] + [0];
    }
  }

  /** One rule: its symbols' numbers, and the token precedence seen last. */
  method PackRule(S: Symbols, pitem: seq<nat>, j0: nat, i: int, ghost s: seq<nat>, ghost rest: seq<nat>)
    returns (items: seq<int>, j: nat, prec: int, assoc: Assoc)
    requires S.OK() && Known(S, s) && j0 <= |pitem| && pitem[j0..] == s + [0] + rest
    ensures items == Indexed(S, s) + [-i] && j == j0 + |s| + 1 && OfLastToken(S, s, prec, assoc)
  {
    items, j, prec, assoc := [], j0, 0, Token;
    ghost var last: int := -1;
    assert pitem[j] == (s + [0] + rest)[0];
    while pitem[j] != 0
      invariant j0 <= j <= j0 + |s| < |pitem| && pitem[j] == (s + [0])[j - j0]
      invariant items == Indexed(S, s[..j - j0]) && LastSoFar(S, s, j - j0, last, prec, assoc)
      decreases |pitem| - j
    {
      ghost var k := j - j0;
      assert k < |s| && s[..k + 1][..k] == s[..k];
      items := items + [S.index[pitem[j]]];
      if S.IsTerm(pitem[j]) {
        prec, assoc := S.prec[pitem[j]], S.assoc[pitem[j]];
        last := k;
      }
      j := j + 1;
      assert pitem[j] == pitem[j0..][k + 1] == (s + [0])[k + 1];
    }
    assert j - j0 == |s| && s[..|s|] == s;
    LastOfAll(S, s, last, prec, assoc);
    items := items + [-i];
    j := j + 1;
  }

  /** Rule r's left-hand side, start, and precedence. */
  ghost predicate RulePacked(S: Symbols, goal: nat, plhs: seq<nat>, closed: seq<seq<nat>>, rprec: seq<int>,
                             rassoc: seq<Assoc>, rlhs: seq<nat>, rrhs: seq<nat>, prec: seq<int>, assoc: seq<Assoc>,
                             r: nat) {
    && 3 <= r < |plhs| && r < |rlhs| && r < |rrhs| && r < |prec| && r < |assoc| && r < |rprec| && r < |rassoc|
    && AllKnown(S, closed) && r - 3 < |closed| && goal < |S.index| && plhs[r] < |S.index| &&
        |S.prec| == |S.assoc| == |S.index|
    && rlhs[r] == S.index[plhs[r]] && rrhs[r] == |ItemsFor(S, goal, closed, r - 3)|
    && if rprec[r] == UNDEFINED then OfLastToken(S, closed[r - 3], prec[r], assoc[r])
       else prec[r] == rprec[r] && assoc[r] == rassoc[r]
  }

  ghost predicate Packing(S: Symbols, goal: nat, plhs: seq<nat>, closed: seq<seq<nat>>, rprec: seq<int>,
                          rassoc: seq<Assoc>, n: nat, ritem: seq<int>, rlhs: seq<nat>, rrhs: seq<nat>, prec: seq<int>,
                          assoc: seq<Assoc>) {
    && AllKnown(S, closed) && n <= |closed| && goal < |S.index| && |rlhs| == |rrhs| == |prec| == |assoc| == n + 3
    && ritem == ItemsFor(S, goal, closed, n)
    && rlhs[..3] == [0, 0, S.ntokens] && rrhs[..3] == [0, 0, 1]
    && forall r: nat :: 3 <= r < n + 3 ==> RulePacked(S, goal, plhs, closed, rprec, rassoc, rlhs, rrhs, prec, assoc, r)
  }

  /** pack_grammar. */
  method Pack(S: Symbols, goal: nat, pitem: seq<nat>, plhs: seq<nat>, ghost closed: seq<seq<nat>>, rprec: seq<int>,
              rassoc: seq<Assoc>) returns (ritem: seq<int>, rlhs: seq<nat>, rrhs: seq<nat>, prec: seq<int>,
              assoc: seq<Assoc>)
    requires S.OK() && 1 <= goal < |S.index| && AllKnown(S, closed) && pitem == [0, 0, 0, 0] + Flat(closed)
    requires |plhs| == |rprec| == |rassoc| == 3 + |closed| && forall r :: 3 <= r < |plhs| ==> plhs[r] < |S.index|
    ensures |rrhs| == |closed| + 4 && rrhs[|closed| + 3] == |ritem|
    ensures Packing(S, goal, plhs, closed, rprec, rassoc, |closed|, ritem, rlhs, rrhs[..|closed| + 3], prec, assoc)
  {
    var first: int := S.index[goal];
    ritem, rlhs, rrhs := [-1, first, 0, -2], [0, 0, S.ntokens], [0, 0, 1];
    prec, assoc := rprec[..3], rassoc[..3];
    var j: nat, i: nat := 4, 3;
    while i < |plhs|
      invariant 3 <= i <= |plhs| && j == |ritem| == 4 + |Flat(closed[..i - 3])|
      invariant Packing(S, goal, plhs, closed, rprec, rassoc, i - 3, ritem, rlhs, rrhs, prec, assoc)
    {
      ghost var rest := FlatSplit(closed, i - 3);
      assert pitem[j..] == closed[i - 3] + [0] + rest;
      var items, k, p, a := PackRule(S, pitem, j, i, closed[i - 3], rest);
      FlatSnoc(closed[..i - 3], closed[i - 3]);
      assert closed[..i - 2] == closed[..i - 3] + [closed[i - 3]];
      PackingStep(S, goal, plhs, closed, rprec, rassoc, i - 3, ritem, rlhs, rrhs, prec, assoc, items, p, a);
      rlhs, rrhs, ritem := rlhs + [S.index[plhs[i]]], rrhs + [j], ritem + items;
      j := k;
      if rprec[i] == UNDEFINED {
        prec, assoc := prec + [p], assoc + [a];
      } else {
        prec, assoc := prec + [rprec[i]], assoc + [rassoc[i]];
      }
      i := i + 1;
    }
    rrhs := rrhs + [j];
    assert rrhs[..|closed| + 3] == rrhs[..|rrhs| - 1];
  }

  lemma PackingStep(S: Symbols, goal: nat, plhs: seq<nat>, closed: seq<seq<nat>>, rprec: seq<int>, rassoc: seq<Assoc>,
                    n: nat, ritem: seq<int>, rlhs: seq<nat>, rrhs: seq<nat>, prec: seq<int>, assoc: seq<Assoc>,
                    items: seq<int>, p: int, a: Assoc)
    requires S.OK() && Packing(S, goal, plhs, closed, rprec, rassoc, n, ritem, rlhs, rrhs, prec, assoc) && n < |closed|
    requires |plhs| == |rprec| == |rassoc| == 3 + |closed| && plhs[n + 3] < |S.index|
    requires items == Indexed(S, closed[n]) + [-(n + 3)] && OfLastToken(S, closed[n], p, a)
    ensures var i := n + 3;
            Packing(S, goal, plhs, closed, rprec, rassoc, n + 1, ritem + items, rlhs + [S.index[plhs[i]]],
                    rrhs + [|ritem|], prec + [if rprec[i] == UNDEFINED then p else rprec[i]],
                    assoc + [if rprec[i] == UNDEFINED then a else rassoc[i]])
  {
    var i := n + 3;
    assert ritem + items == ItemsFor(S, goal, closed, n + 1);
    var rlhs', rrhs' := rlhs + [S.index[plhs[i]]], rrhs + [|ritem|];
    var prec', assoc' := prec + [if rprec[i] == UNDEFINED then p else rprec[i]],
        assoc + [if rprec[i] == UNDEFINED then a else rassoc[i]];
    assert rlhs'[..3] == rlhs[..3] && rrhs'[..3] == rrhs[..3];
    forall r: nat | 3 <= r < n + 4
      ensures RulePacked(S, goal, plhs, closed, rprec, rassoc, rlhs', rrhs', prec', assoc', r)
    {
      assert r < n + 3 ==> RulePacked(S, goal, plhs, closed, rprec, rassoc, rlhs, rrhs, prec, assoc, r);
    }
  }

  lemma {:induction false} ItemsPrefix(S: Symbols, goal: nat, closed: seq<seq<nat>>, n: nat, m: nat)
    requires AllKnown(S, closed) && goal < |S.index| && n <= m <= |closed|
    ensures ItemsFor(S, goal, closed, n) <= ItemsFor(S, goal, closed, m) && |ItemsFor(S, goal, closed, n)| >= 4
    decreases m
  {
    if n < m {
      ItemsPrefix(S, goal, closed, n, m - 1);
    } else if n > 0 {
      ItemsPrefix(S, goal, closed, n - 1, n - 1);
    }
  }

  /** Items past the start rule are symbols or end markers. */
  lemma {:induction false} ItemsAre(S: Symbols, goal: nat, closed: seq<seq<nat>>, n: nat)
    requires S.OK() && AllKnown(S, closed) && 1 <= goal < |S.index| && n <= |closed|
    ensures var s := ItemsFor(S, goal, closed, n);
            && |s| >= 4 && s[..4] == ItemsFor(S, goal, closed, 0)
            && forall i :: 4 <= i < |s| ==> s[i] != 0
  {
    if n > 0 {
      ItemsAre(S, goal, closed, n - 1);
      var s, t := ItemsFor(S, goal, closed, n - 1), Indexed(S, closed[n - 1]);
      assert ItemsFor(S, goal, closed, n)[..4] == s[..4];
      assert forall k :: 0 <= k < |t| ==> t[k] != 0;
    }
  }

  /** Where rule r lies in the items. */
  ghost predicate RuleAt(S: Symbols, goal: nat, closed: seq<seq<nat>>, ritem: seq<int>, lo: nat, hi: nat, r: nat)
    requires AllKnown(S, closed) && goal < |S.index|
  {
    3 <= r && r - 3 < |closed| && lo <= hi <= |ritem| && ritem[lo..hi] == Indexed(S, closed[r - 3]) + [-(r as int)]
  }

  lemma RuleIsAt(S: Symbols, goal: nat, closed: seq<seq<nat>>, r: nat)
    requires S.OK() && AllKnown(S, closed) && goal < |S.index| && 3 <= r < |closed| + 3
    ensures RuleAt(S, goal, closed, ItemsFor(S, goal, closed, |closed|),
                   |ItemsFor(S, goal, closed, r - 3)|, |ItemsFor(S, goal, closed, r - 2)|, r)
  {
    var s, t, u := ItemsFor(S, goal, closed, r - 3), ItemsFor(S, goal, closed, r - 2),
        ItemsFor(S, goal, closed, |closed|);
    ItemsPrefix(S, goal, closed, r - 2, |closed|);
    assert t == s + (Indexed(S, closed[r - 3]) + [-(r as int)]);
    assert u[|s|..|t|] == t[|s|..];
  }

  /** The packed grammar, with the external numbers of its symbols. */
  function Laid(S: Symbols, ritem: seq<int>, rlhs: seq<nat>, rrhs: seq<nat>, value: seq<int>): Packed {
    Packed(ritem, rlhs, rrhs, S.ntokens, S.nsyms, value)
  }

  /** Starts of the rules, the end of the last included. */
  ghost predicate Starts(S: Symbols, goal: nat, closed: seq<seq<nat>>, rrhs: seq<nat>)
    requires AllKnown(S, closed) && goal < |S.index|
  {
    && |rrhs| == |closed| + 4 && rrhs[0] == rrhs[1] == 0 && rrhs[2] == 1
    && forall r :: 3 <= r < |rrhs| ==> rrhs[r] == |ItemsFor(S, goal, closed, r - 3)|
  }

  ghost predicate LhsPacked(S: Symbols, plhs: seq<nat>, rlhs: seq<nat>, r: nat) {
    r < |plhs| && r < |rlhs| && plhs[r] < |S.index| && rlhs[r] == S.index[plhs[r]]
  }

  lemma PackedStarts(S: Symbols, goal: nat, plhs: seq<nat>, closed: seq<seq<nat>>, rprec: seq<int>, rassoc: seq<Assoc>,
                     ritem: seq<int>, rlhs: seq<nat>, rrhs: seq<nat>, prec: seq<int>, assoc: seq<Assoc>)
    requires |rrhs| == |closed| + 4 && rrhs[|closed| + 3] == |ritem|
    requires Packing(S, goal, plhs, closed, rprec, rassoc, |closed|, ritem, rlhs, rrhs[..|closed| + 3], prec, assoc)
    ensures Starts(S, goal, closed, rrhs) && ritem == ItemsFor(S, goal, closed, |closed|)
    ensures |rlhs| == |closed| + 3 && rlhs[..3] == [0, 0, S.ntokens]
    ensures forall r: nat :: 3 <= r < |rlhs| ==> LhsPacked(S, plhs, rlhs, r)
  {
    var n := |closed| + 3;
    assert rrhs[..n][..3] == rrhs[..3];
    assert rrhs[0] == rrhs[..3][0] && rrhs[1] == rrhs[..3][1] && rrhs[2] == rrhs[..3][2];
    forall r | 3 <= r < n
      ensures rrhs[r] == |ItemsFor(S, goal, closed, r - 3)|
    {
      assert RulePacked(S, goal, plhs, closed, rprec, rassoc, rlhs, rrhs[..n], prec, assoc, r);
    }
    forall r: nat | 3 <= r < |rlhs|
      ensures LhsPacked(S, plhs, rlhs, r)
    {
      assert RulePacked(S, goal, plhs, closed, rprec, rassoc, rlhs, rrhs[..n], prec, assoc, r);
    }
  }

  /** The precedence of every rule read: the one given to it, or that of its last token. */
  ghost predicate RulePrecedences(S: Symbols, closed: seq<seq<nat>>, rprec: seq<int>, rassoc: seq<Assoc>,
                                  prec: seq<int>, assoc: seq<Assoc>) {
    && AllKnown(S, closed) && |S.prec| == |S.assoc| == |S.index| && |closed| + 3 <= |rprec| && |rprec| == |rassoc|
    && |prec| == |assoc| == |closed| + 3
    && forall r :: 3 <= r < |closed| + 3 ==>
         if rprec[r] == UNDEFINED then OfLastToken(S, closed[r - 3], prec[r], assoc[r])
         else prec[r] == rprec[r] && assoc[r] == rassoc[r]
  }

  lemma PackedPrecedences(S: Symbols, goal: nat, plhs: seq<nat>, closed: seq<seq<nat>>, rprec: seq<int>,
                          rassoc: seq<Assoc>, ritem: seq<int>, rlhs: seq<nat>, rrhs: seq<nat>, prec: seq<int>,
                          assoc: seq<Assoc>)
    requires Packing(S, goal, plhs, closed, rprec, rassoc, |closed|, ritem, rlhs, rrhs, prec, assoc)
    requires |S.prec| == |S.assoc| == |S.index| && |rprec| == |rassoc| == |closed| + 3
    ensures RulePrecedences(S, closed, rprec, rassoc, prec, assoc)
  {
    forall r: nat | 3 <= r < |closed| + 3
      ensures if rprec[r] == UNDEFINED then OfLastToken(S, closed[r - 3], prec[r], assoc[r])
              else prec[r] == rprec[r] && assoc[r] == rassoc[r]
    {
      assert RulePacked(S, goal, plhs, closed, rprec, rassoc, rlhs, rrhs, prec, assoc, r);
    }
  }

  /** A rule laid down is shaped as later stages expect, and spells its right-hand side. */
  lemma LaidRule(S: Symbols, goal: nat, closed: seq<seq<nat>>, rlhs: seq<nat>, rrhs: seq<nat>, value: seq<int>, r: nat)
    requires S.OK() && AllKnown(S, closed) && 1 <= goal < |S.index| && Starts(S, goal, closed, rrhs) &&
        |rlhs| == |closed| + 3
    requires 3 <= r < |rlhs|
    ensures var g := Laid(S, ItemsFor(S, goal, closed, |closed|), rlhs, rrhs, value);
            g.RuleShape(r) && RuleAt(S, goal, closed, g.ritem, rrhs[r], rrhs[r + 1], r)
  {
    var ritem := ItemsFor(S, goal, closed, |closed|);
    RuleIsAt(S, goal, closed, r);
    var lo, hi := rrhs[r], rrhs[r + 1];
    hide ItemsFor;
    var t := Indexed(S, closed[r - 3]);
    assert |ritem[lo..hi]| == |t| + 1;
    assert ritem[hi - 1] == ritem[lo..hi][|t|];
    forall i | lo <= i < hi - 1
      ensures 0 <= ritem[i] < S.nsyms && ritem[i] != S.ntokens
    {
      assert ritem[i] == ritem[lo..hi][i - lo] == t[i - lo];
    }
  }

  /** The first rule of the encoding, which is not in the rules read. */
  lemma StartIsLaid(S: Symbols, goal: nat, closed: seq<seq<nat>>, rlhs: seq<nat>, rrhs: seq<nat>, value: seq<int>)
    requires S.OK() && AllKnown(S, closed) && 1 <= goal < |S.index| && Starts(S, goal, closed, rrhs) &&
        |rlhs| == |closed| + 3
    requires S.index[goal] == S.ntokens + 1
    ensures var g := Laid(S, ItemsFor(S, goal, closed, |closed|), rlhs, rrhs, value);
            && g.RuleShape(2) && rrhs[3] == 4 <= |g.ritem| && g.ritem[0] == -1 && g.ritem[1] == S.ntokens + 1 &&
                g.ritem[2] == 0
            && rrhs[|rlhs|] == |g.ritem| && forall i :: 4 <= i < |g.ritem| ==> g.ritem[i] != 0
  {
    var s := ItemsFor(S, goal, closed, |closed|);
    ItemsAre(S, goal, closed, |closed|);
    assert s[..4][0] == s[0] && s[..4][1] == s[1] && s[..4][2] == s[2] && s[..4][3] == s[3];
  }

  /** What pack_grammar lays down is a grammar in the shared encoding. */
  lemma LaidIsWellFormed(S: Symbols, goal: nat, closed: seq<seq<nat>>, rlhs: seq<nat>, rrhs: seq<nat>, value: seq<int>)
    requires S.OK() && AllKnown(S, closed) && 1 <= goal < |S.index| && Starts(S, goal, closed, rrhs) &&
        |value| == S.nsyms
    requires |rlhs| == |closed| + 3 && rlhs[..3] == [0, 0, S.ntokens] && S.index[goal] == S.ntokens + 1
    requires forall r :: 3 <= r < |rlhs| ==> S.ntokens < rlhs[r] < S.nsyms
    ensures Laid(S, ItemsFor(S, goal, closed, |closed|), rlhs, rrhs, value).WellFormed()
  {
    var g := Laid(S, ItemsFor(S, goal, closed, |closed|), rlhs, rrhs, value);
    StartIsLaid(S, goal, closed, rlhs, rrhs, value);
    hide ItemsFor, Packed.RuleShape, RuleAt;
    assert rlhs[0] == rlhs[..3][0] && rlhs[1] == rlhs[..3][1] && rlhs[2] == rlhs[..3][2];
    forall r | 2 <= r < |rlhs|
      ensures g.RuleShape(r)
    {
      if r > 2 {
        LaidRule(S, goal, closed, rlhs, rrhs, value, r);
      }
    }
  }

  /** Its rules are the rules as read, with every symbol replaced by its number. */
  lemma LaidRhs(S: Symbols, goal: nat, closed: seq<seq<nat>>, rlhs: seq<nat>, rrhs: seq<nat>, value: seq<int>, r: nat)
    requires S.OK() && AllKnown(S, closed) && 1 <= goal < |S.index| && Starts(S, goal, closed, rrhs) &&
        |rlhs| == |closed| + 3
    requires 3 <= r < |rlhs| && Laid(S, ItemsFor(S, goal, closed, |closed|), rlhs, rrhs, value).WellFormed()
    ensures Laid(S, ItemsFor(S, goal, closed, |closed|), rlhs, rrhs, value).Rhs(r) == Indexed(S, closed[r - 3])
  {
    var g := Laid(S, ItemsFor(S, goal, closed, |closed|), rlhs, rrhs, value);
    LaidRule(S, goal, closed, rlhs, rrhs, value, r);
    var lo, hi, t := rrhs[r], rrhs[r + 1], Indexed(S, closed[r - 3]);
    assert |g.ritem[lo..hi]| == |t| + 1;
    forall k | 0 <= k < |t|
      ensures g.Rhs(r)[k] == t[k]
    {
      assert g.ritem[lo..hi][k] == t[k];
    }
  }
}

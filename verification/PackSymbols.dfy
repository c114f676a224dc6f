/** reader.c, pack_symbols: every symbol numbered, tokens first, and every token given an external
    number. */
module PackSymbols {
  import opened Defs

  /** How many of the buckets 1 to b are tokens. */
  function Terms(isTerm: seq<bool>, b: nat): (c: nat)
    requires b < |isTerm|
    ensures c <= b
  {
    if b == 0 then 0 else Terms(isTerm, b - 1) + (if isTerm[b] then 1 else 0)
  }

  lemma {:induction false} TermsGrow(isTerm: seq<bool>, a: nat, b: nat)
    requires a <= b < |isTerm|
    ensures Terms(isTerm, a) <= Terms(isTerm, b) <= Terms(isTerm, a) + (b - a)
    decreases b
  {
    if a < b {
      TermsGrow(isTerm, a, b - 1);
    }
  }

  /** The place of bucket b in v: tokens from 1 on, nonterminals after the start symbol. */
  function PlaceOf(isTerm: seq<bool>, ntokens: nat, b: nat): nat
    requires 1 <= b < |isTerm|
  {
    if isTerm[b] then 1 + Terms(isTerm, b - 1) else ntokens + 1 + (b - 1 - Terms(isTerm, b - 1))
  }

  /** Where v holds each bucket. */
  ghost predicate Lists(isTerm: seq<bool>, ntokens: nat, v: seq<nat>, n: nat)
    requires n < |isTerm|
  {
    forall b :: 1 <= b <= n ==> PlaceOf(isTerm, ntokens, b) < |v| && v[PlaceOf(isTerm, ntokens, b)] == b
  }

  lemma PlacesDiffer(isTerm: seq<bool>, ntokens: nat, a: nat, b: nat)
    requires 1 <= a < b < |isTerm| && ntokens == 1 + Terms(isTerm, |isTerm| - 1)
    ensures PlaceOf(isTerm, ntokens, a) != PlaceOf(isTerm, ntokens, b)
    ensures (isTerm[a] <==> isTerm[b]) ==> PlaceOf(isTerm, ntokens, a) < PlaceOf(isTerm, ntokens, b)
    ensures 1 <= PlaceOf(isTerm, ntokens, b) < |isTerm| + 1 && PlaceOf(isTerm, ntokens, b) != ntokens
    ensures isTerm[b] <==> PlaceOf(isTerm, ntokens, b) < ntokens
    ensures isTerm[a] <==> PlaceOf(isTerm, ntokens, a) < ntokens
  {
    TermsGrow(isTerm, a, b - 1);
    TermsGrow(isTerm, b, |isTerm| - 1);
    TermsGrow(isTerm, a, |isTerm| - 1);
  }

  /** A place is in range and says whether its bucket is a token. */
  lemma PlaceFits(isTerm: seq<bool>, ntokens: nat, b: nat)
    requires 1 <= b < |isTerm| && ntokens == 1 + Terms(isTerm, |isTerm| - 1)
    ensures 1 <= PlaceOf(isTerm, ntokens, b) < |isTerm| + 1 && PlaceOf(isTerm, ntokens, b) != ntokens
    ensures isTerm[b] <==> PlaceOf(isTerm, ntokens, b) < ntokens
  {
    TermsGrow(isTerm, b, |isTerm| - 1);
  }

  /** Place p holds the bucket whose place it is. */
  ghost predicate Holds(isTerm: seq<bool>, ntokens: nat, v: seq<nat>, p: nat) {
    p < |v| && 1 <= v[p] < |isTerm| && PlaceOf(isTerm, ntokens, v[p]) == p
  }

  method CountTokens(isTerm: seq<bool>) returns (ntokens: nat)
    requires isTerm != []
    ensures ntokens == 1 + Terms(isTerm, |isTerm| - 1)
  {
    ntokens := 1;
    var b := 1;
    while b < |isTerm|
      invariant 1 <= b <= |isTerm| && ntokens == 1 + Terms(isTerm, b - 1)
    {
      if isTerm[b] {
        ntokens := ntokens + 1;
      }
      b := b + 1;
    }
  }

  /** The filling of v: tokens and nonterminals each in the order of the symbol list. */
  method ListSymbols(isTerm: seq<bool>, ntokens: nat) returns (v: seq<nat>)
    requires isTerm != [] && ntokens == 1 + Terms(isTerm, |isTerm| - 1)
    ensures |v| == |isTerm| + 1 && Lists(isTerm, ntokens, v, |isTerm| - 1)
    ensures forall p: nat :: 1 <= p < |v| && p != ntokens ==> Holds(isTerm, ntokens, v, p)
  {
    v := seq(|isTerm| + 1, _ => 0);
    var i, j, b := 1, ntokens + 1, 1;
    while b < |isTerm|
      invariant 1 <= b <= |isTerm| && |v| == |isTerm| + 1
      invariant i == 1 + Terms(isTerm, b - 1) && j == ntokens + 1 + (b - 1 - Terms(isTerm, b - 1))
      invariant Lists(isTerm, ntokens, v, b - 1)
      invariant forall p: nat :: (1 <= p < i || ntokens < p < j) ==> Holds(isTerm, ntokens, v, p)
    {
      PlaceFits(isTerm, ntokens, b);
      forall a | 1 <= a < b
        ensures PlaceOf(isTerm, ntokens, a) != PlaceOf(isTerm, ntokens, b)
      {
        PlacesDiffer(isTerm, ntokens, a, b);
      }
      ghost var v0 := v;
      if isTerm[b] {
        v := v[i := b];
        i := i + 1;
      } else {
        v := v[j := b];
        j := j + 1;
      }
      forall p: nat | Holds(isTerm, ntokens, v0, p) || p == PlaceOf(isTerm, ntokens, b)
        ensures p != PlaceOf(isTerm, ntokens, b) || Holds(isTerm, ntokens, v, p)
        ensures p == PlaceOf(isTerm, ntokens, b) || Holds(isTerm, ntokens, v, p)
      {
      }
      b := b + 1;
    }
  }

  /** The number of the symbol at place p, with the goal moved to the front of the nonterminals. */
  function Moved(ntokens: nat, goalPlace: nat, p: nat): nat {
    if p < ntokens then p else if p == goalPlace then ntokens + 1 else if p < goalPlace then p + 1 else p
  }

  /** Every bucket at places below n is numbered, except nonterminals not reached. */
  ghost predicate NumberedBelow(v: seq<nat>, ntokens: nat, goalPlace: nat, index: seq<nat>, n: nat) {
    forall p :: 1 <= p < n && p < |v| && p != ntokens ==> v[p] < |index| && index[v[p]] == Moved(ntokens, goalPlace, p)
  }

  /** v lists distinct buckets of those below n at all places but 0 and ntokens. */
  ghost predicate Listing(v: seq<nat>, ntokens: nat, n: nat) {
    && (forall p :: 1 <= p < |v| && p != ntokens ==> 1 <= v[p] < n)
    && forall p, q :: 1 <= p < q < |v| && p != ntokens && q != ntokens ==> v[p] != v[q]
  }

  /** The loops that give every bucket its index. */
  method GiveIndexes(v: seq<nat>, ntokens: nat, n: nat, ghost goalPlace: nat, goal: nat) returns (index: seq<nat>)
    requires Listing(v, ntokens, n) && 1 <= ntokens < goalPlace < |v| && v[goalPlace] == goal
    ensures |index| == n && NumberedBelow(v, ntokens, goalPlace, index, |v|)
  {
    index := seq(n, _ => 0);
    var i: nat := 1;
    while i < ntokens
      invariant 1 <= i <= ntokens && |index| == n && NumberedBelow(v, ntokens, goalPlace, index, i)
    {
      index := index[v[i] := i];
      i := i + 1;
    }
    index := index[goal := ntokens + 1];
    var k: nat := ntokens + 2;
    i := i + 1;
    while i < |v|
      invariant ntokens < i <= |v| && |index| == n && index[goal] == ntokens + 1
      invariant k == if i <= goalPlace then i + 1 else i
      invariant forall p :: 1 <= p < i && p != ntokens ==> index[v[p]] == Moved(ntokens, goalPlace, p)
    {
      if v[i] != goal {
        index := index[v[i] := k];
        k := k + 1;
      }
      i := i + 1;
    }
  }

  lemma HoldsIsListing(isTerm: seq<bool>, ntokens: nat, v: seq<nat>)
    requires forall p: nat :: 1 <= p < |v| && p != ntokens ==> Holds(isTerm, ntokens, v, p)
    ensures Listing(v, ntokens, |isTerm|)
  {
    forall p: nat | 1 <= p < |v| && p != ntokens
      ensures 1 <= v[p] < |isTerm| && PlaceOf(isTerm, ntokens, v[p]) == p
    {
      assert Holds(isTerm, ntokens, v, p);
    }
  }

  predicate Ascends(s: seq<int>) {
    forall i, j :: 0 <= i < j < |s| ==> s[i] <= s[j]
  }

  lemma InsertedAscends(s: seq<int>, j: nat, n: int)
    requires Ascends(s) && j <= |s| && (j > 0 ==> s[j - 1] <= n) && forall p :: j <= p < |s| ==> s[p] > n
    ensures Ascends(s[..j] + [n] + s[j..])
    ensures forall x :: x in s[..j] + [n] + s[j..] <==> x == n || x in s
  {
    assert s == s[..j] + s[j..];
  }

  lemma InsertedIs(s: seq<int>, t: seq<int>, j: nat, n: int)
    requires j <= |s| < |t| && t[j] == n
    requires (forall p :: 0 <= p < j ==> t[p] == s[p]) && forall p :: j <= p < |s| ==> t[p + 1] == s[p]
    ensures t[..|s| + 1] == s[..j] + [n] + s[j..]
  {
    var u := s[..j] + [n] + s[j..];
    forall p | 0 <= p < |u|
      ensures u[p] == t[p]
    {
      if p > j {
        assert t[p - 1 + 1] == s[p - 1];
      }
    }
  }

  /** One insertion into the sorted explicit numbers. */
  method InsertNumber(a: array<int>, k: nat, n: int)
    requires k < a.Length && Ascends(a[..k])
    modifies a
    ensures Ascends(a[..k + 1])
    ensures forall x :: x in a[..k + 1] <==> x == n || x in old(a[..k])
  {
    ghost var s := a[..k];
    var j := k;
    while j > 0 && a[j - 1] > n
      invariant 0 <= j <= k && (forall p :: 0 <= p < j ==> a[p] == s[p]) && forall p :: j <= p < k ==>
          a[p + 1] == s[p] > n
    {
      a[j] := a[j - 1];
      j := j - 1;
    }
    a[j] := n;
    InsertedAscends(s, j, n);
    InsertedIs(s, a[..], j, n);
  }

  /** The numbers above 256 given in the grammar, sorted. */
  method SortNumbers(given: seq<int>) returns (sorted: seq<int>)
    requires given != []
    ensures Ascends(sorted) && forall x :: x in sorted <==> x > 256 && x in given[1..]
  {
    var a := new int[|given|];
    var k, i := 0, 1;
    while i < |given|
      invariant 1 <= i <= |given| && k <= i - 1 && Ascends(a[..k])
      invariant forall x :: x in a[..k] <==> x > 256 && x in given[1..i]
    {
      var n := given[i];
      ghost var before, seen := a[..k], given[1..i];
      i := i + 1;
      assert given[1..i] == seen + [n];
      if n > 256 {
        InsertNumber(a, k, n);
        k := k + 1;
      }
    }
    assert given[1..i] == given[1..];
    sorted := a[..k];
  }

  /** The numbers as given, with the error token's own. */
  function Fixed(given: seq<int>): (f: seq<int>)
    requires |given| >= 2
    ensures |f| == |given|
  {
    given[1 := if given[1] == UNDEFINED then 256 else given[1]]
  }

  ghost predicate DistinctWhere(s: seq<int>, given: seq<int>)
    requires |s| <= |given|
  {
    forall i, j :: 0 <= i < j < |s| && given[i] != UNDEFINED && given[j] != UNDEFINED ==> s[i] != s[j]
  }

  ghost predicate Distinct(s: seq<int>) {
    forall i, j :: 0 <= i < j < |s| ==> s[i] != s[j]
  }

  /** The explicit numbers below place j are below n, the others are not. */
  ghost predicate SplitAt(sorted: seq<int>, j: nat, n: int) {
    j <= |sorted| && (forall m :: 0 <= m < j ==> sorted[m] < n) && forall m :: j <= m < |sorted| ==> sorted[m] >= n
  }

  /** The least number from n0 on that was not given. */
  method NextFree(sorted: seq<int>, j0: nat, n0: int) returns (j: nat, n: int)
    requires Ascends(sorted) && SplitAt(sorted, j0, n0)
    ensures n >= n0 && n !in sorted && SplitAt(sorted, j, n) && forall m :: n0 <= m < n ==> m in sorted
  {
    j, n := j0, n0;
    while j < |sorted| && n == sorted[j]
      invariant n >= n0 && SplitAt(sorted, j, n) && forall m :: n0 <= m < n ==> m in sorted
      decreases |sorted| - j
    {
      j := j + 1;
      while j < |sorted| && n == sorted[j]
        invariant j <= |sorted| && (forall m :: 0 <= m < j ==> sorted[m] <= n) && forall m :: j <= m < |sorted| ==>
            sorted[m] >= n
        decreases |sorted| - j
      {
        j := j + 1;
      }
      n := n + 1;
    }
  }

  /** A token before the i-th was given no number and has m. */
  ghost predicate AssignedBelow(f: seq<int>, value: seq<int>, i: nat, m: int) {
    exists k :: 0 <= k < i && k < |f| && k < |value| && f[k] == UNDEFINED && value[k] == m
  }

  /** Every token without a given number has the least number above 256 that is neither given nor
      taken by an earlier one. */
  ghost predicate LeastFresh(given: seq<int>, value: seq<int>)
    requires |value| == |given| >= 2
  {
    forall i :: 0 <= i < |given| && Fixed(given)[i] == UNDEFINED ==>
      && value[i] > 256 && value[i] !in given[1..] && !AssignedBelow(Fixed(given), value, i, value[i])
      && forall m :: 256 < m < value[i] ==> m in given[1..] || AssignedBelow(Fixed(given), value, i, m)
  }

  /** A number that is n or was used up before n stays so when the next token is numbered. */
  lemma UsedUpStays(f: seq<int>, value: seq<int>, i: nat, n: int)
    requires |f| == |value| && i < |f| && f[i] == UNDEFINED
    ensures AssignedBelow(f, value[i := n], i + 1, n)
    ensures forall m, j: nat :: j <= i ==> (AssignedBelow(f, value[i := n], j, m) <==> AssignedBelow(f, value, j, m))
    ensures forall m :: AssignedBelow(f, value, i, m) ==> AssignedBelow(f, value[i := n], i + 1, m)
  {
    var w := value[i := n];
    assert w[i] == n;
    forall m, j: nat | j <= i
      ensures AssignedBelow(f, w, j, m) <==> AssignedBelow(f, value, j, m)
    {
      forall k | 0 <= k < j
        ensures w[k] == value[k]
      {
      }
    }
  }

  /** The fresh numbers of the tokens before the i-th, all below n. */
  ghost predicate FreshSoFar(f: seq<int>, sorted: seq<int>, value: seq<int>, i: nat, n: int)
    requires |f| == |value|
  {
    && (forall m :: 256 < m < n ==> m in sorted || AssignedBelow(f, value, i, m))
    && (forall k: nat :: k < i && k < |f| && f[k] == UNDEFINED ==> 256 < value[k] < n && FreshAt(f, sorted, value, k))
  }

  ghost predicate FreshAt(f: seq<int>, sorted: seq<int>, value: seq<int>, k: nat)
    requires k < |value|
  {
    && value[k] !in sorted && !AssignedBelow(f, value, k, value[k])
    && forall m :: 256 < m < value[k] ==> m in sorted || AssignedBelow(f, value, k, m)
  }

  lemma FreshStep(f: seq<int>, sorted: seq<int>, value: seq<int>, i: nat, n0: int, n: int)
    requires |f| == |value| && i < |f| && f[i] == UNDEFINED && FreshSoFar(f, sorted, value, i, n0)
    requires 257 <= n0 <= n && n !in sorted && forall m :: n0 <= m < n ==> m in sorted
    ensures FreshSoFar(f, sorted, value[i := n], i + 1, n + 1)
  {
    var w := value[i := n];
    UsedUpStays(f, value, i, n);
    forall k: nat | k < i + 1 && f[k] == UNDEFINED
      ensures 256 < w[k] < n + 1 && FreshAt(f, sorted, w, k)
    {
      assert k < i ==> FreshAt(f, sorted, value, k);
    }
  }

  /** The numbers of the tokens: those given stay, the error token gets 256, the others get the least
      fresh ones above 256. They are pairwise distinct exactly when those given are. */
  method GiveNumbers(given: seq<int>) returns (value: seq<int>)
    requires |given| >= 2 && given[0] == 0 && forall i :: 0 <= i < |given| ==> given[i] >= 0 || given[i] == UNDEFINED
    ensures |value| == |given| && value[0] == 0 && forall i :: 0 <= i < |value| ==> value[i] >= 0
    ensures forall i :: 0 <= i < |given| && Fixed(given)[i] != UNDEFINED ==> value[i] == Fixed(given)[i]
    ensures value[1] == if given[1] == UNDEFINED then 256 else given[1]
    ensures forall i :: 2 <= i < |given| && given[i] != UNDEFINED ==> value[i] == given[i]
    ensures LeastFresh(given, value)
    ensures Distinct(value) <==> DistinctWhere(Fixed(given), Fixed(given))
  {
    var sorted := SortNumbers(given);
    value := Fixed(given);
    var f := value;
    var j: nat, n := 0, 257;
    assert forall m :: 0 <= m < |sorted| ==> sorted[m] in sorted;
    var i := 2;
    while i < |given|
      invariant 2 <= i <= |given| && |value| == |given| && SplitAt(sorted, j, n) && n >= 257
      invariant forall k :: 0 <= k < |given| && (i <= k || f[k] != UNDEFINED) ==> value[k] == f[k]
      invariant FreshSoFar(f, sorted, value, i, n)
    {
      if value[i] == UNDEFINED {
        ghost var n0 := n;
        j, n := NextFree(sorted, j, n);
        FreshStep(f, sorted, value, i, n0, n);
        value := value[i := n];
        n := n + 1;
        if j < |sorted| {
          assert sorted[j] in sorted;
        }
        assert SplitAt(sorted, j, n);
      } else {
        StillFresh(f, sorted, value, i, n);
      }
      i := i + 1;
    }
    NumbersDiffer(given, sorted, value, n);
  }

  lemma StillFresh(f: seq<int>, sorted: seq<int>, value: seq<int>, i: nat, n: int)
    requires |f| == |value| && i < |f| && f[i] != UNDEFINED && FreshSoFar(f, sorted, value, i, n)
    ensures FreshSoFar(f, sorted, value, i + 1, n)
  {
    forall m | AssignedBelow(f, value, i, m)
      ensures AssignedBelow(f, value, i + 1, m)
    {
    }
  }

  /** A fresh number is no given one. */
  lemma NumbersDiffer(given: seq<int>, sorted: seq<int>, value: seq<int>, n: int)
    requires |given| >= 2 && |value| == |given| && given[0] == 0
    requires forall x :: x in sorted <==> x > 256 && x in given[1..]
    requires forall k :: 0 <= k < |given| && Fixed(given)[k] != UNDEFINED ==> value[k] == Fixed(given)[k]
    requires FreshSoFar(Fixed(given), sorted, value, |given|, n)
    ensures LeastFresh(given, value)
    ensures Distinct(value) <==> DistinctWhere(Fixed(given), Fixed(given))
  {
    var f := Fixed(given);
    forall i | 0 <= i < |given| && f[i] == UNDEFINED
      ensures FreshAt(f, sorted, value, i) && value[i] > 256
    {
    }
    forall k, l | 0 <= k < |given| && 0 <= l < |given| && k != l && f[k] == UNDEFINED
      ensures value[k] != value[l]
    {
      if f[l] == UNDEFINED {
        assert k < l ==> AssignedBelow(f, value, l, value[k]);
        assert l < k ==> AssignedBelow(f, value, k, value[l]);
      } else if value[l] > 256 {
        assert l >= 1 && given[1..][l - 1] == f[l];
      }
    }
    if Distinct(value) {
      assert forall k, l :: 0 <= k < l < |f| && f[k] != UNDEFINED && f[l] != UNDEFINED ==>
          f[k] == value[k] && f[l] == value[l];
    }
  }

  /** The number given to bucket b, or that of the error token, which is the first bucket. */
  function GivenTo(given: seq<int>, b: nat): int
    requires b < |given|
  {
    if b == 1 && given[b] == UNDEFINED then 256 else given[b]
  }

  /** No two tokens are given the same number, and none that of the end token. */
  ghost predicate GivenApart(isTerm: seq<bool>, given: seq<int>)
    requires |isTerm| == |given|
  {
    && (forall b :: 1 <= b < |isTerm| && isTerm[b] ==> GivenTo(given, b) != 0)
    && forall a, b :: 1 <= a < b < |isTerm| && isTerm[a] && isTerm[b] && GivenTo(given, a) != UNDEFINED ==>
         GivenTo(given, a) != GivenTo(given, b)
  }

  /** The given numbers in token order. */
  ghost predicate TokenOrder(isTerm: seq<bool>, given: seq<int>, ntokens: nat, v: seq<nat>, tokenGiven: seq<int>)
    requires |isTerm| == |given|
  {
    && |tokenGiven| == ntokens >= 2 && tokenGiven[0] == 0 && ntokens < |v|
    && forall p :: 1 <= p < ntokens ==> 1 <= v[p] < |given| && tokenGiven[p] == given[v[p]]
  }

  lemma ApartInOrder(isTerm: seq<bool>, given: seq<int>, ntokens: nat, v: seq<nat>, tokenGiven: seq<int>)
    requires |isTerm| == |given| > 1 && isTerm[1] && ntokens == 1 + Terms(isTerm, |isTerm| - 1)
    requires Lists(isTerm, ntokens, v, |isTerm| - 1) && TokenOrder(isTerm, given, ntokens, v, tokenGiven)
    requires forall p: nat :: 1 <= p < ntokens ==> Holds(isTerm, ntokens, v, p)
    ensures DistinctWhere(Fixed(tokenGiven), Fixed(tokenGiven)) <==> GivenApart(isTerm, given)
  {
    var f := Fixed(tokenGiven);
    assert PlaceOf(isTerm, ntokens, 1) == 1 && v[1] == 1;
    forall p: nat | 1 <= p < ntokens
      ensures isTerm[v[p]] && f[p] == GivenTo(given, v[p])
    {
      assert Holds(isTerm, ntokens, v, p);
      PlaceFits(isTerm, ntokens, v[p]);
    }
    forall b: nat | 1 <= b < |isTerm| && isTerm[b]
      ensures 1 <= PlaceOf(isTerm, ntokens, b) < ntokens && v[PlaceOf(isTerm, ntokens, b)] == b
    {
      PlaceFits(isTerm, ntokens, b);
    }
    if GivenApart(isTerm, given) {
      forall i: nat, j: nat | i < j < ntokens && f[i] != UNDEFINED && f[j] != UNDEFINED
        ensures f[i] != f[j]
      {
        if i > 0 {
          assert Holds(isTerm, ntokens, v, i) && Holds(isTerm, ntokens, v, j);
          assert v[i] != v[j];
        }
      }
    }
    if DistinctWhere(f, f) {
      ApartBack(isTerm, given, ntokens, v, f);
    }
  }

  lemma ApartBack(isTerm: seq<bool>, given: seq<int>, ntokens: nat, v: seq<nat>, f: seq<int>)
    requires |isTerm| == |given| > 0 && |f| == ntokens < |v| && ntokens > 0 && f[0] == 0 && DistinctWhere(f, f)
    requires ntokens == 1 + Terms(isTerm, |isTerm| - 1)
    requires forall p: nat :: 1 <= p < ntokens ==> v[p] < |given| && f[p] == GivenTo(given, v[p])
    requires forall b: nat :: 1 <= b < |isTerm| && isTerm[b] ==>
        1 <= PlaceOf(isTerm, ntokens, b) < ntokens && v[PlaceOf(isTerm, ntokens, b)] == b
    ensures GivenApart(isTerm, given)
  {
    forall b | 1 <= b < |isTerm| && isTerm[b]
      ensures GivenTo(given, b) != 0
    {
      var p := PlaceOf(isTerm, ntokens, b);
      assert f[p] == GivenTo(given, b);
    }
    forall a, b | 1 <= a < b < |isTerm| && isTerm[a] && isTerm[b] && GivenTo(given, a) != UNDEFINED &&
        GivenTo(given, b) != UNDEFINED
      ensures GivenTo(given, a) != GivenTo(given, b)
    {
      var p, q := PlaceOf(isTerm, ntokens, a), PlaceOf(isTerm, ntokens, b);
      PlacesDiffer(isTerm, ntokens, a, b);
      assert f[p] == GivenTo(given, a) && f[q] == GivenTo(given, b);
    }
  }

  /** Every bucket has its own number: tokens below ntokens, nonterminals above, the goal first, all
      others of a class in the order in which they were met. */
  ghost predicate IndexOK(isTerm: seq<bool>, goal: nat, ntokens: nat, index: seq<nat>)
    requires goal < |isTerm|
  {
    && |index| == |isTerm| && index[goal] == ntokens + 1
    && (forall b :: 1 <= b < |index| ==>
        1 <= index[b] <= |isTerm| && index[b] != ntokens && (isTerm[b] <==> index[b] < ntokens))
    && forall a, b :: 1 <= a < b < |index| ==>
         index[a] != index[b] && ((isTerm[a] <==> isTerm[b]) && a != goal && b != goal ==> index[a] < index[b])
  }

  lemma NumberedIsOK(isTerm: seq<bool>, goal: nat, ntokens: nat, v: seq<nat>, index: seq<nat>)
    requires 1 <= goal < |isTerm| == |index| && !isTerm[goal] && ntokens == 1 + Terms(isTerm, |isTerm| - 1) &&
        |v| == |isTerm| + 1
    requires Lists(isTerm, ntokens, v, |isTerm| - 1)
    requires NumberedBelow(v, ntokens, PlaceOf(isTerm, ntokens, goal), index, |v|)
    ensures IndexOK(isTerm, goal, ntokens, index)
  {
    var gp := PlaceOf(isTerm, ntokens, goal);
    PlaceFits(isTerm, ntokens, goal);
    forall b | 1 <= b < |index|
      ensures 1 <= index[b] <= |isTerm| && index[b] != ntokens && (isTerm[b] <==> index[b] < ntokens)
      ensures index[b] == Moved(ntokens, gp, PlaceOf(isTerm, ntokens, b))
    {
      PlaceFits(isTerm, ntokens, b);
      assert v[PlaceOf(isTerm, ntokens, b)] == b;
    }
    forall a, b | 1 <= a < b < |index|
      ensures index[a] != index[b] && ((isTerm[a] <==> isTerm[b]) && a != goal && b != goal ==> index[a] < index[b])
    {
      PlacesDiffer(isTerm, ntokens, a, b);
    }
  }

  /** A token keeps the number given to its bucket; without one the error token, which is bucket 1, has
      256, and the others have numbers above it. */
  ghost predicate NumbersGiven(isTerm: seq<bool>, given: seq<int>, index: seq<nat>, value: seq<int>)
    requires |isTerm| == |given| == |index|
  {
    forall b :: 1 <= b < |isTerm| && isTerm[b] ==>
      && index[b] < |value|
      && if given[b] != UNDEFINED then value[index[b]] == given[b]
         else if b == 1 then value[index[b]] == 256 else value[index[b]] > 256
  }

  lemma TokensKeepNumbers(isTerm: seq<bool>, given: seq<int>, goal: nat, ntokens: nat, v: seq<nat>, index: seq<nat>,
                          tokenGiven: seq<int>, value: seq<int>)
    requires 1 <= goal < |isTerm| == |given| == |index| && isTerm[1] && !isTerm[goal] &&
        ntokens == 1 + Terms(isTerm, |isTerm| - 1)
    requires Lists(isTerm, ntokens, v, |isTerm| - 1) && TokenOrder(isTerm, given, ntokens, v, tokenGiven) &&
        ntokens <= |value|
    requires NumberedBelow(v, ntokens, PlaceOf(isTerm, ntokens, goal), index, |v|)
    requires LeastFresh(tokenGiven, value[..ntokens])
    requires forall p :: 0 <= p < ntokens && Fixed(tokenGiven)[p] != UNDEFINED ==>
        value[..ntokens][p] == Fixed(tokenGiven)[p]
    ensures NumbersGiven(isTerm, given, index, value)
  {
    forall b | 1 <= b < |isTerm| && isTerm[b]
      ensures index[b] < |value|
      ensures if given[b] != UNDEFINED then value[index[b]] == given[b]
              else if b == 1 then value[index[b]] == 256 else value[index[b]] > 256
    {
      var p := PlaceOf(isTerm, ntokens, b);
      PlaceFits(isTerm, ntokens, b);
      if b > 1 {
        PlacesDiffer(isTerm, ntokens, 1, b);
      }
      assert v[p] == b && index[b] == p && value[..ntokens][p] == value[p];
      assert Fixed(tokenGiven)[p] == GivenTo(given, b);
    }
  }

  /** The external numbers of the tokens, from those given to their buckets. */
  method TokenNumbers(isTerm: seq<bool>, given: seq<int>, ntokens: nat, v: seq<nat>)
    returns (tokens: seq<int>, ghost tokenGiven: seq<int>)
    requires |isTerm| == |given| && Listing(v, ntokens, |isTerm|) && 2 <= ntokens < |v|
    requires forall b :: 0 <= b < |given| ==> given[b] >= 0 || given[b] == UNDEFINED
    ensures TokenOrder(isTerm, given, ntokens, v, tokenGiven)
    ensures |tokens| == ntokens && tokens[0] == 0 && forall t :: 0 <= t < ntokens ==> tokens[t] >= 0
    ensures forall p :: 0 <= p < ntokens && Fixed(tokenGiven)[p] != UNDEFINED ==> tokens[p] == Fixed(tokenGiven)[p]
    ensures LeastFresh(tokenGiven, tokens)
    ensures Distinct(tokens) <==> DistinctWhere(Fixed(tokenGiven), Fixed(tokenGiven))
  {
    var tg: seq<int> := [0];
    var i: nat := 1;
    while i < ntokens
      invariant 1 <= i == |tg| <= ntokens && tg[0] == 0
      invariant forall p :: 1 <= p < i ==> tg[p] == given[v[p]]
    {
      tg := tg + [given[v[i]]];
      i := i + 1;
    }
    tokenGiven := tg;
    tokens := GiveNumbers(tg);
  }

  /** Those of the start symbol and the nonterminals. */
  method VarNumbers(tokens: seq<int>, v: seq<nat>, index: seq<nat>, goal: nat, ghost goalPlace: nat, n: nat)
    returns (value: seq<int>)
    requires Listing(v, |tokens|, n) && 2 <= |tokens| < goalPlace < |v| && v[goalPlace] == goal
    requires NumberedBelow(v, |tokens|, goalPlace, index, |v|)
    ensures |value| == |v| && value[..|tokens|] == tokens && value[|tokens|] == -1
    ensures forall X :: |tokens| < X < |value| ==> value[X] == X - |tokens| - 1
  {
    var ntokens := |tokens|;
    value := tokens + seq(|v| - ntokens, _ => -1);
    var k := 1;
    var i := ntokens + 1;
    while i < |v|
      invariant ntokens < i <= |v| == |value| && value[..ntokens] == tokens && value[ntokens] == -1
      invariant k == if i <= goalPlace then i - ntokens else i - ntokens - 1
      invariant forall p :: ntokens < p < i ==>
          value[Moved(ntokens, goalPlace, p)] == Moved(ntokens, goalPlace, p) - ntokens - 1
    {
      var X := index[v[i]];
      assert X == Moved(ntokens, goalPlace, i);
      if v[i] == goal {
        value := value[X := 0];
      } else {
        value := value[X := k];
        k := k + 1;
      }
      i := i + 1;
    }
    forall X | ntokens < X < |value|
      ensures value[X] == X - ntokens - 1
    {
      var p := if X == ntokens + 1 then goalPlace else if X <= goalPlace then X - 1 else X;
      assert Moved(ntokens, goalPlace, p) == X;
    }
  }

  /** pack_symbols. A token keeps the number the grammar gives it; the external numbers are pairwise distinct
      exactly when the grammar gives no number twice, and none that of the end token. */
  method NumberSymbols(isTerm: seq<bool>, given: seq<int>, goal: nat)
    returns (ntokens: nat, index: seq<nat>, value: seq<int>)
    requires |isTerm| == |given| > 1 && isTerm[1] && 1 <= goal < |isTerm| && !isTerm[goal]
    requires forall b :: 0 <= b < |given| ==> given[b] >= 0 || given[b] == UNDEFINED
    ensures IndexOK(isTerm, goal, ntokens, index) && 2 <= ntokens < |isTerm| && |value| == |isTerm| + 1
    ensures value[0] == 0 && value[ntokens] == -1 && forall t :: 0 <= t < ntokens ==> value[t] >= 0
    ensures forall X :: ntokens < X < |value| ==> value[X] == X - ntokens - 1
    ensures NumbersGiven(isTerm, given, index, value)
    ensures Distinct(value[..ntokens]) <==> GivenApart(isTerm, given)
  {
    ntokens := CountTokens(isTerm);
    PlaceFits(isTerm, ntokens, 1);
    PlaceFits(isTerm, ntokens, goal);
    var v := ListSymbols(isTerm, ntokens);
    ghost var gp := PlaceOf(isTerm, ntokens, goal);
    HoldsIsListing(isTerm, ntokens, v);
    index := GiveIndexes(v, ntokens, |isTerm|, gp, goal);
    NumberedIsOK(isTerm, goal, ntokens, v, index);
    var tokens, tokenGiven := TokenNumbers(isTerm, given, ntokens, v);
    value := VarNumbers(tokens, v, index, goal, gp, |isTerm|);
    assert forall t :: 0 <= t < ntokens ==> value[t] == value[..ntokens][t];
    ApartInOrder(isTerm, given, ntokens, v, tokenGiven);
    TokensKeepNumbers(isTerm, given, goal, ntokens, v, index, tokenGiven, value);
  }
}

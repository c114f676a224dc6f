/** examples/udr/Functions.cpp, mult: long multiplication of two binary coded decimals of the same
    number of digits, cut back to that number. */
module BcdMult {

  /** A decimal: digits, most significant first, sign, and exponent of the last digit. */
  datatype Bcd = Bcd(digits: seq<nat>, negative: bool, exp: int)

  function Pow10(n: nat): (p: nat)
    ensures p >= 1
  {
    if n == 0 then 1 else 10 * Pow10(n - 1)
  }

  /** The number a string of digits stands for; the digits need not be below ten. */
  function Number(s: seq<nat>): nat {
    if s == [] then 0 else 10 * Number(s[..|s| - 1]) + s[|s| - 1]
  }

  predicate Decimal(s: seq<nat>) {
    forall k :: 0 <= k < |s| ==> s[k] <= 9
  }

  /** One digit counts with its power of ten. */
  lemma {:induction false} NumberUpdate(s: seq<nat>, k: nat, x: nat)
    requires k < |s|
    ensures Number(s[k := x]) - Number(s) == (x - s[k]) * Pow10(|s| - 1 - k)
    decreases |s|
  {
    var n := |s| - 1;
    if k == n {
      assert s[k := x][..n] == s[..n];
    } else {
      assert s[k := x][..n] == s[..n][k := x];
      NumberUpdate(s[..n], k, x);
      TenThrough(x - s[k], Pow10(n - 1 - k));
    }
  }

  lemma TenThrough(d: int, p: nat)
    ensures 10 * (d * p) == d * (10 * p)
  {}

  lemma TimesTen(a: nat, p: nat, b: nat)
    ensures 10 * (a * p + b) == a * (10 * p) + 10 * b
  {}

  lemma {:induction false} NumberConcat(s: seq<nat>, t: seq<nat>)
    ensures Number(s + t) == Number(s) * Pow10(|t|) + Number(t)
    decreases |t|
  {
    if t == [] {
      assert s + t == s;
    } else {
      var n := |t| - 1;
      assert (s + t)[..|s + t| - 1] == s + t[..n];
      NumberConcat(s, t[..n]);
      TimesTen(Number(s), Pow10(n), Number(t[..n]));
    }
  }

  lemma {:induction false} NumberBound(s: seq<nat>)
    requires Decimal(s)
    ensures Number(s) < Pow10(|s|)
    decreases |s|
  {
    if s != [] {
      NumberBound(s[..|s| - 1]);
    }
  }

  lemma {:induction false} NumberZero(s: seq<nat>)
    requires forall k :: 0 <= k < |s| ==> s[k] == 0
    ensures Number(s) == 0
    decreases |s|
  {
    if s != [] {
      NumberZero(s[..|s| - 1]);
    }
  }

  lemma NumberHead(s: seq<nat>, i: nat)
    requires i < |s|
    ensures Number(s[i..]) == s[i] * Pow10(|s| - 1 - i) + Number(s[i + 1..])
  {
    assert s[i..] == [s[i]] + s[i + 1..];
    NumberConcat([s[i]], s[i + 1..]);
    assert [s[i]][..0] == [];
  }

  /** The powers of two digits multiply to the power of the place their product is added at. */
  lemma {:induction false} PowAdd(m: nat, n: nat)
    ensures Pow10(m) * Pow10(n) == Pow10(m + n)
  {
    if m > 0 {
      PowAdd(m - 1, n);
    }
  }

  /** The product after rows i + 1 and up, and digits j and up of row i. */
  ghost function Partial(a: seq<nat>, b: seq<nat>, i: nat, j: nat): nat
    requires i < |a| && j <= |b|
  {
    Number(a[i + 1..]) * Number(b) + a[i] * Pow10(|a| - 1 - i) * Number(b[j..])
  }

  lemma PartialStep(a: seq<nat>, b: seq<nat>, i: nat, j: nat)
    requires |a| == |b| && i < |a| && j < |b|
    ensures Partial(a, b, i, j) == Partial(a, b, i, j + 1) + a[i] * b[j] * Pow10(2 * |a| - 1 - (i + j + 1))
  {
    var m, n := |a| - 1 - i, |a| - 1 - j;
    NumberHead(b, j);
    PowAdd(m, n);
    Regroup(a[i], Pow10(m), b[j], Pow10(n), Number(b[j + 1..]));
    assert m + n == 2 * |a| - 1 - (i + j + 1);
  }

  lemma Regroup(x: nat, p: nat, y: nat, q: nat, r: nat)
    ensures x * p * (y * q + r) == x * p * r + x * y * (p * q)
  {
    assert x * p * (y * q) == x * y * (p * q) by {
      assert p * (y * q) == y * (p * q);
      assert x * p * (y * q) == x * (p * (y * q));
      assert x * y * (p * q) == x * (y * (p * q));
    }
  }

  lemma PartialEnds(a: seq<nat>, b: seq<nat>, i: nat)
    requires i < |a|
    ensures Partial(a, b, i, |b|) == Number(a[i + 1..]) * Number(b)
    ensures Partial(a, b, i, 0) == Number(a[i..]) * Number(b)
  {
    NumberHead(a, i);
    assert b[|b|..] == [] && b[0..] == b;
    var p := a[i] * Pow10(|a| - 1 - i);
    assert (p + Number(a[i + 1..])) * Number(b) == p * Number(b) + Number(a[i + 1..]) * Number(b);
  }

  /** The buffer between two steps: decimal digits but for a carry at place top, and nothing yet
      before it. */
  ghost predicate BufferOK(buf: seq<nat>, top: nat) {
    && (forall k :: 0 <= k < |buf| ==> buf[k] <= if k == top then 18 else 9)
    && (forall k :: 0 <= k < |buf| && k < top ==> buf[k] <= 9)
  }

  ghost predicate Untouched(buf: seq<nat>, i: nat) {
    forall k :: 0 <= k <= i && k < |buf| ==> buf[k] == 0
  }

  /** The sum one digit product makes at its place. */
  ghost predicate SumAt(x: nat, y: nat, digit: nat, v: nat) {
    v <= 99 && v == x * y + digit
  }

  /** The buffer after v is split into the digit at p + 1 and the carry into p. */
  ghost function Carried(buf: seq<nat>, p: nat, v: nat): seq<nat>
    requires p + 1 < |buf|
  {
    buf[p + 1 := v % 10][p := buf[p] + v / 10]
  }

  /** What one digit product does to the number in the buffer. */
  lemma StepNumber(buf: seq<nat>, p: nat, v: nat, x: nat, y: nat)
    requires p + 1 < |buf| && v == x * y + buf[p + 1]
    ensures Number(Carried(buf, p, v)) == Number(buf) + x * y * Pow10(|buf| - 1 - (p + 1))
  {
    var s := buf[p + 1 := v % 10];
    NumberUpdate(buf, p + 1, v % 10);
    NumberUpdate(s, p, buf[p] + v / 10);
    var w := Pow10(|buf| - 1 - (p + 1));
    assert Pow10(|buf| - 1 - p) == 10 * w;
    CarryOver(v, buf[p + 1], w);
  }

  /** A carry is worth ten of the place it comes from. */
  lemma CarryOver(v: nat, x: nat, w: nat)
    ensures (v % 10 - x) * w + (v / 10) * (10 * w) == (v - x) * w
  {
    assert (v / 10) * (10 * w) == (10 * (v / 10)) * w;
    assert (v % 10 - x) * w + (10 * (v / 10)) * w == (v % 10 - x + 10 * (v / 10)) * w;
  }

  lemma AtMost81(x: nat, y: nat)
    requires x <= 9 && y <= 9
    ensures 0 <= x * y <= 81
  {
    assert x * y <= 9 * y;
  }

  /** One digit product, in bytes: nothing exceeds 99. */
  method AddProduct(buf: array<nat>, p: nat, x: nat, y: nat) returns (v: nat)
    requires p + 1 < buf.Length && x <= 9 && y <= 9 && buf[p] <= 9 && buf[p + 1] <= 18
    modifies buf
    ensures SumAt(x, y, old(buf[p + 1]), v)
    ensures buf[..] == Carried(old(buf[..]), p, v)
  {
    AtMost81(x, y);
    v := (x * y + buf[p + 1]) % 256;
    buf[p + 1] := v % 10;
    buf[p] := (buf[p] + v / 10) % 256;
  }

  /** The buffer before digit j - 1 of row i. */
  ghost predicate RowOK(buf: seq<nat>, i: nat, j: nat) {
    && BufferOK(buf, i + j) && i < |buf|
    && if j > 0 then Untouched(buf, i) else buf[i] <= 9 && (i > 0 ==> Untouched(buf, i - 1))
  }

  lemma RowStep(buf: seq<nat>, i: nat, j: nat, v: nat)
    requires RowOK(buf, i, j + 1) && i + j + 1 < |buf| && v <= 99
    ensures RowOK(Carried(buf, i + j, v), i, j)
  {}

  lemma DigitDone(a: seq<nat>, b: seq<nat>, buf: seq<nat>, i: nat, j: nat, v: nat)
    requires |a| == |b| && i < |a| && j < |b| && |buf| == 2 * |a| && SumAt(a[i], b[j], buf[i + j + 1], v)
    requires RowOK(buf, i, j + 1) && Number(buf) == Partial(a, b, i, j + 1)
    ensures var s := Carried(buf, i + j, v);
            RowOK(s, i, j) && Number(s) == Partial(a, b, i, j)
  {
    hide Number, Pow10, Partial;
    PartialStep(a, b, i, j);
    StepNumber(buf, i + j, v, a[i], b[j]);
    RowStep(buf, i, j, v);
  }

  lemma RowReady(a: seq<nat>, b: seq<nat>, buf: seq<nat>, i: nat, j: nat)
    requires Decimal(a) && Decimal(b) && i < |a| && j < |b| && i + j + 1 < |buf| && RowOK(buf, i, j + 1)
    ensures a[i] <= 9 && b[j] <= 9 && buf[i + j] <= 9 && buf[i + j + 1] <= 18
  {}

  lemma RowBegins(buf: seq<nat>, i: nat, n: nat)
    requires Decimal(buf) && i < |buf| && n > 0 && Untouched(buf, i)
    ensures RowOK(buf, i, n)
  {}

  lemma RowEnds(buf: seq<nat>, i: nat)
    requires RowOK(buf, i, 0)
    ensures Decimal(buf) && (i > 0 ==> Untouched(buf, i - 1))
  {}

  /** One row of the multiplication. */
  method AddRow(a: seq<nat>, b: seq<nat>, buf: array<nat>, i: nat)
    requires |a| == |b| && i < |a| && Decimal(a) && Decimal(b) && buf.Length == 2 * |a|
    requires Decimal(buf[..]) && Untouched(buf[..], i) && Number(buf[..]) == Number(a[i + 1..]) * Number(b)
    modifies buf
    ensures Decimal(buf[..]) && (i > 0 ==> Untouched(buf[..], i - 1)) && Number(buf[..]) == Number(a[i..]) * Number(b)
  {
    PartialEnds(a, b, i);
    RowBegins(buf[..], i, |b|);
    hide *;
    var j: nat := |b|;
    while j > 0
      invariant j <= |b| && RowOK(buf[..], i, j) && Number(buf[..]) == Partial(a, b, i, j)
    {
      j := j - 1;
      ghost var before := buf[..];
      RowReady(a, b, before, i, j);
      var v := AddProduct(buf, i + j, a[i], b[j]);
      DigitDone(a, b, before, i, j, v);
    }
    RowEnds(buf[..], i);
  }

  /** The digit loops of mult: the buffer ends up holding the product. */
  method Multiply(a: seq<nat>, b: seq<nat>) returns (buf: array<nat>)
    requires |a| == |b| && Decimal(a) && Decimal(b)
    ensures fresh(buf) && buf.Length == 2 * |a| && Decimal(buf[..]) && Number(buf[..]) == Number(a) * Number(b)
  {
    buf := new nat[2 * |a|](_ => 0);
    NumberZero(buf[..]);
    assert a[|a|..] == [];
    var i: nat := |a|;
    while i > 0
      invariant i <= |a| && Decimal(buf[..]) && (i > 0 ==> Untouched(buf[..], i - 1))
      invariant Number(buf[..]) == Number(a[i..]) * Number(b)
    {
      i := i - 1;
      AddRow(a, b, buf, i);
    }
    assert a[0..] == a;
  }

  /** The digits kept, after the leading zeros, are the product cut off below the last one kept. */
  lemma CutOff(buf: seq<nat>, N: nat, offset: nat)
    requires |buf| == 2 * N && Decimal(buf) && offset <= N && forall k :: 0 <= k < offset ==> buf[k] == 0
    ensures var Q := Number(buf[offset..offset + N]); var unit := Pow10(N - offset);
            Q * unit <= Number(buf) < (Q + 1) * unit && (offset == N ==> Q == Number(buf))
  {
    DropZeros(buf, offset);
    var kept, low := buf[offset..offset + N], buf[offset + N..];
    assert buf[offset..] == kept + low;
    NumberConcat(kept, low);
    NumberBound(low);
    assert |low| == N - offset;
    if offset == N {
      assert low == [];
    }
    hide Number, Pow10;
    OneMore(Number(kept), Pow10(N - offset));
  }

  lemma OneMore(q: nat, unit: nat)
    ensures (q + 1) * unit == q * unit + unit
  {}

  lemma DropZeros(s: seq<nat>, n: nat)
    requires n <= |s| && forall k :: 0 <= k < n ==> s[k] == 0
    ensures Number(s) == Number(s[n..])
  {
    NumberZero(s[..n]);
    assert s == s[..n] + s[n..];
    NumberConcat(s[..n], s[n..]);
  }

  /** mult: the result is the exact product, truncated to as many digits as the factors have; it is
      exact when it needs no more, and starts with a nonzero digit when it is not. */
  method Mult(a: Bcd, b: Bcd) returns (rc: Bcd)
    requires |a.digits| == |b.digits| && Decimal(a.digits) && Decimal(b.digits)
    ensures |rc.digits| == |a.digits| && Decimal(rc.digits)
    ensures rc.negative == (a.negative != b.negative)
    ensures rc.exp >= a.exp + b.exp
    ensures var Q, unit := Number(rc.digits), Pow10(rc.exp - (a.exp + b.exp));
            Q * unit <= Number(a.digits) * Number(b.digits) < (Q + 1) * unit
    ensures rc.exp == a.exp + b.exp ==> Number(rc.digits) == Number(a.digits) * Number(b.digits)
    ensures rc.exp > a.exp + b.exp ==> |rc.digits| > 0 && rc.digits[0] != 0
  {
    var N := |a.digits|;
    var buf := Multiply(a.digits, b.digits);
    var offset: nat := 0;
    while offset < N && buf[offset] == 0
      invariant offset <= N && forall k :: 0 <= k < offset ==> buf[k] == 0
    {
      offset := offset + 1;
    }
    CutOff(buf[..], N, offset);
    assert buf[..][offset..offset + N] == buf[offset..offset + N];
    rc := Bcd(buf[offset..offset + N], a.negative != b.negative, a.exp + b.exp + (N - offset));
  }
}

/** reader.c, get_literal: what the escapes of a literal mean, however they are spelled. */
module Escapes {
  import opened SymTab
  import opened Literal

  const DIGITS: string := "0123456789ABCDEF"
  const SMALL_DIGITS: string := "0123456789abcdef"
  const LETTERS: string := "abfnrtv"
  const CONTROLS: seq<nat> := [7, 8, 12, 10, 13, 9, 11]

  /** c is the digit d, in either case. */
  ghost predicate IsDigit(base: nat, c: nat, d: nat) {
    d < base <= 16 && (c == DIGITS[d] as nat || c == SMALL_DIGITS[d] as nat)
  }

  ghost predicate NoDigit(base: nat, rest: seq<nat>) {
    rest != [] ==> forall d: nat :: !IsDigit(base, rest[0], d)
  }

  /** The digits ds are the numeral of n. */
  ghost predicate Numeral(base: nat, ds: seq<nat>, n: nat)
    decreases |ds|, 1
  {
    if ds == [] then n == 0 else exists d: nat, m: nat :: EndsIn(base, ds, n, d, m)
  }

  ghost predicate EndsIn(base: nat, ds: seq<nat>, n: nat, d: nat, m: nat)
    requires ds != []
    decreases |ds|, 0
  {
    IsDigit(base, ds[|ds| - 1], d) && n == base * m + d && Numeral(base, ds[..|ds| - 1], m)
  }

  lemma HexDigit(c: nat, d: nat)
    requires IsDigit(16, c, d)
    ensures HexVal(c) == d
  {}

  lemma NotHexDigit(c: nat)
    requires forall d: nat :: !IsDigit(16, c, d)
    ensures HexVal(c) < 0
  {
    if HexVal(c) >= 0 {
      assert IsDigit(16, c, HexVal(c));
    }
  }

  lemma OctalDigit(c: nat, d: nat)
    requires IsDigit(8, c, d)
    ensures IsOctal(c) && c - 48 == d
  {}

  lemma NotOctalDigit(c: nat)
    requires forall d: nat :: !IsDigit(8, c, d)
    ensures !IsOctal(c)
  {
    if IsOctal(c) {
      assert IsDigit(8, c, c - 48);
    }
  }

  /** The value of digits that follow n. */
  ghost predicate Continues(base: nat, n: nat, ds: seq<nat>, v: nat)
    decreases |ds|, 1
  {
    if ds == [] then v == n else exists d: nat :: GoesOn(base, n, ds, v, d)
  }

  ghost predicate GoesOn(base: nat, n: nat, ds: seq<nat>, v: nat, d: nat)
    requires ds != []
    decreases |ds|, 0
  {
    IsDigit(base, ds[0], d) && Continues(base, base * n + d, ds[1..], v)
  }

  /** A numeral read from the left. */
  lemma {:induction false} FromLeft(base: nat, n: nat, ds: seq<nat>, v: nat, c: nat, d: nat)
    requires Continues(base, n, ds, v) && IsDigit(base, c, d)
    ensures Continues(base, n, ds + [c], base * v + d)
    decreases |ds|
  {
    if ds == [] {
      assert (ds + [c])[1..] == [];
      assert GoesOn(base, n, ds + [c], base * v + d, d);
    } else {
      var e: nat :| GoesOn(base, n, ds, v, e);
      FromLeft(base, base * n + e, ds[1..], v, c, d);
      assert (ds + [c])[1..] == ds[1..] + [c];
      assert GoesOn(base, n, ds + [c], base * v + d, e);
    }
  }

  lemma {:induction false} NumeralContinues(base: nat, ds: seq<nat>, n: nat)
    requires Numeral(base, ds, n)
    ensures Continues(base, 0, ds, n)
    decreases |ds|
  {
    if ds != [] {
      var d: nat, m: nat :| EndsIn(base, ds, n, d, m);
      NumeralContinues(base, ds[..|ds| - 1], m);
      FromLeft(base, 0, ds[..|ds| - 1], m, ds[|ds| - 1], d);
      assert ds[..|ds| - 1] + [ds[|ds| - 1]] == ds;
    }
  }

  lemma {:induction false} NeverLess(n: nat, ds: seq<nat>, v: nat)
    requires Continues(16, n, ds, v)
    ensures n <= v
    decreases |ds|
  {
    hide IsDigit;
    if ds != [] {
      var d: nat :| GoesOn(16, n, ds, v, d);
      NeverLess(16 * n + d, ds[1..], v);
    }
  }

  /** Hexadecimal digits after those that made n. */
  lemma {:induction false} HexReads(n: nat, ds: seq<nat>, v: nat, rest: seq<nat>)
    requires Continues(16, n, ds, v) && NoDigit(16, rest) && n <= MAXCHAR
    ensures Hex(n, ds + rest) == if v > MAXCHAR then Bad else Byte(v, rest)
    decreases |ds|
  {
    var t := ds + rest;
    if ds == [] {
      assert t == rest;
      if rest != [] {
        NotHexDigit(rest[0]);
      }
    } else {
      var d: nat :| GoesOn(16, n, ds, v, d);
      HexDigit(ds[0], d);
      NeverLess(16 * n + d, ds[1..], v);
      assert t[1..] == ds[1..] + rest;
      if 16 * n + d <= MAXCHAR {
        HexReads(16 * n + d, ds[1..], v, rest);
      }
    }
  }

  /** The literal goes on with the byte c, and then with rest. */
  ghost predicate Prepends(quote: nat, t: seq<nat>, c: nat, rest: seq<nat>) {
    Decode(quote, t) == match Decode(quote, rest)
                        case Err => Err
                        case Ok(d) => Ok(Decoded([c] + d.bytes, d.rest))
  }

  lemma PiecePrepends(quote: nat, t: seq<nat>, c: nat, rest: seq<nat>)
    requires NextPiece(quote, t) == Byte(c, rest)
    ensures Prepends(quote, t, c, rest)
  {}

  /** Backslash, x and hexadecimal digits in either case are the byte with that numeral, and an error
      if it is too large. */
  lemma HexEscape(quote: nat, ds: seq<nat>, n: nat, rest: seq<nat>)
    requires (quote == SINGLE || quote == DOUBLE) && ds != [] && Numeral(16, ds, n) && NoDigit(16, rest)
    ensures var t := [BACKSLASH, 'x' as nat] + ds + rest;
            if n > 255 then Decode(quote, t).Err? else Prepends(quote, t, n, rest)
  {
    hide Hex;
    var t := [BACKSLASH, 'x' as nat] + ds + rest;
    NumeralContinues(16, ds, n);
    var d: nat :| GoesOn(16, 0, ds, n, d);
    HexDigit(ds[0], d);
    HexReads(d, ds[1..], n, rest);
    assert t[1..][2..] == ds[1..] + rest && t[1..][1] == ds[0];
    if n <= 255 {
      PiecePrepends(quote, t, n, rest);
    }
  }

  lemma HexEscapeFails(quote: nat)
    requires quote == SINGLE || quote == DOUBLE
    ensures forall rest: seq<nat> :: NoDigit(16, rest) ==> Decode(quote, [BACKSLASH, 'x' as nat] + rest).Err?
  {
    forall rest: seq<nat> | NoDigit(16, rest)
      ensures Decode(quote, [BACKSLASH, 'x' as nat] + rest).Err?
    {
      var t := [BACKSLASH, 'x' as nat] + rest;
      assert t[1..][1..] == rest;
      if rest != [] {
        NotHexDigit(rest[0]);
      }
    }
  }

  /** Backslash and one to three octal digits; a fourth is not looked at. */
  lemma OctalEscape(quote: nat, ds: seq<nat>, n: nat, rest: seq<nat>)
    requires (quote == SINGLE || quote == DOUBLE) && 1 <= |ds| <= 3 && Numeral(8, ds, n)
    requires |ds| < 3 ==> NoDigit(8, rest)
    ensures var t := [BACKSLASH] + ds + rest;
            if n > 255 then Decode(quote, t).Err? else Prepends(quote, t, n, rest)
  {
    var t := [BACKSLASH] + ds + rest;
    NumeralContinues(8, ds, n);
    OctalReads(ds, n, rest);
    assert t[1..] == ds + rest && (ds + rest)[0] == ds[0] && (ds + rest)[1..] == ds[1..] + rest;
    if n <= 255 {
      PiecePrepends(quote, t, n, rest);
    }
  }

  lemma FirstDigit(base: nat, n: nat, ds: seq<nat>, v: nat) returns (d: nat)
    requires Continues(base, n, ds, v) && ds != []
    ensures IsDigit(base, ds[0], d) && Continues(base, base * n + d, ds[1..], v)
  {
    d :| GoesOn(base, n, ds, v, d);
  }

  lemma OctalReads(ds: seq<nat>, n: nat, rest: seq<nat>)
    requires 1 <= |ds| <= 3 && Continues(8, 0, ds, n) && (|ds| < 3 ==> NoDigit(8, rest))
    ensures IsOctal(ds[0]) && Octal(ds[0], ds[1..] + rest) == if n > 255 then Bad else Byte(n, rest)
  {
    hide Octal, NoDigit, IsDigit;
    var d := FirstDigit(8, 0, ds, n);
    OctalDigit(ds[0], d);
    if |ds| == 1 {
      assert ds[1..] == [] && ds[1..] + rest == rest;
      OneOctal(ds[0], d, rest);
    } else {
      var e := FirstDigit(8, d, ds[1..], n);
      OctalDigit(ds[1], e);
      assert ds[1..][1..] == ds[2..];
      if |ds| == 2 {
        assert ds[2..] == [] && ds[1..] + rest == [ds[1]] + rest;
        TwoOctal(ds[0], ds[1], d, e, rest);
      } else {
        var f := FirstDigit(8, 8 * d + e, ds[2..], n);
        OctalDigit(ds[2], f);
        assert ds[2..][1..] == [] && ds[1..] + rest == [ds[1], ds[2]] + rest;
        ThreeOctal(ds[0], ds[1], ds[2], d, e, f, rest);
      }
    }
  }

  lemma OneOctal(c: nat, d: nat, rest: seq<nat>)
    requires IsOctal(c) && c - 48 == d && NoDigit(8, rest)
    ensures d <= 255 && Octal(c, rest) == Byte(d, rest)
  {
    if rest != [] {
      NotOctalDigit(rest[0]);
    }
  }

  lemma TwoOctal(b: nat, c: nat, d: nat, e: nat, rest: seq<nat>)
    requires IsOctal(b) && IsOctal(c) && b - 48 == d && c - 48 == e && NoDigit(8, rest)
    ensures 8 * d + e <= 255 && Octal(b, [c] + rest) == Byte(8 * d + e, rest)
  {
    assert ([c] + rest)[1..] == rest;
    if rest != [] {
      NotOctalDigit(rest[0]);
    }
  }

  lemma ThreeOctal(a: nat, b: nat, c: nat, d: nat, e: nat, f: nat, rest: seq<nat>)
    requires IsOctal(a) && IsOctal(b) && IsOctal(c) && a - 48 == d && b - 48 == e && c - 48 == f
    ensures var n := 8 * (8 * d + e) + f; Octal(a, [b, c] + rest) == if n > 255 then Bad else Byte(n, rest)
  {
    assert ([b, c] + rest)[2..] == rest;
  }

  /** Backslash and one of the letters a, b, f, n, r, t, v. */
  lemma LetterEscape(quote: nat, k: nat, rest: seq<nat>)
    requires (quote == SINGLE || quote == DOUBLE) && k < |LETTERS|
    ensures Prepends(quote, [BACKSLASH, LETTERS[k] as nat] + rest, CONTROLS[k], rest)
  {
    var t := [BACKSLASH, LETTERS[k] as nat] + rest;
    assert t[1..][1..] == rest && t[1..][0] == LETTERS[k] as nat;
    PiecePrepends(quote, t, CONTROLS[k], rest);
  }

  ghost predicate IsLetter(c: nat) {
    exists k :: 0 <= k < |LETTERS| && c == LETTERS[k] as nat
  }

  lemma OtherLetters(c: nat)
    requires !IsLetter(c)
    ensures Named(c) == c
  {
    assert LETTERS[0] == 'a' && LETTERS[1] == 'b' && LETTERS[2] == 'f' && LETTERS[3] == 'n';
    assert LETTERS[4] == 'r' && LETTERS[5] == 't' && LETTERS[6] == 'v';
  }

  /** Characters that are not escaped stand for themselves. */
  lemma PlainCharacter(quote: nat, c: nat, rest: seq<nat>)
    requires c != NEWLINE && c != quote && c != BACKSLASH
    ensures Prepends(quote, [c] + rest, c, rest)
  {
    assert ([c] + rest)[1..] == rest;
    PiecePrepends(quote, [c] + rest, c, rest);
  }

  /** So do, after a backslash, all that begin no other escape. */
  lemma EscapedCharacter(quote: nat, c: nat, rest: seq<nat>)
    requires (quote == SINGLE || quote == DOUBLE) && c != NEWLINE && c != 'x' as nat && !IsLetter(c)
    requires forall d: nat :: !IsDigit(8, c, d)
    ensures Prepends(quote, [BACKSLASH, c] + rest, c, rest)
  {
    assert ([BACKSLASH, c] + rest)[1..][1..] == rest;
    NotOctalDigit(c);
    OtherLetters(c);
    PiecePrepends(quote, [BACKSLASH, c] + rest, c, rest);
  }

  /** A backslash before the end of a line continues the literal on the next one, if there is one. */
  lemma LineContinues(quote: nat, rest: seq<nat>)
    requires quote == SINGLE || quote == DOUBLE
    ensures Decode(quote, [BACKSLASH, NEWLINE] + rest) == if rest == [] then Err else Decode(quote, rest)
  {
    assert ([BACKSLASH, NEWLINE] + rest)[1..][1..] == rest;
  }

  lemma Closed(quote: nat, rest: seq<nat>)
    ensures Decode(quote, [quote] + rest) == Ok(Decoded([], rest))
  {
    assert ([quote] + rest)[1..] == rest;
  }

  /** A byte written with hexadecimal digits has the bucket of the byte written plainly. */
  lemma HexSharesBucket(st: SymbolTable, b: Bucket, c: Bucket, ds: seq<nat>, n: nat, rest: seq<nat>, rest': seq<nat>)
    requires st.Valid() && st.Entered(b) && st.Entered(c) && ds != [] && Numeral(16, ds, n) && n <= 255
    requires n != SINGLE && n != BACKSLASH && n != NEWLINE
    requires var d := Decode(SINGLE, [BACKSLASH, 'x' as nat] + ds + [SINGLE] + rest);
             d.Ok? ==> b.name == Canonical(d.value.bytes)
    requires var d := Decode(SINGLE, [n, SINGLE] + rest'); d.Ok? ==> c.name == Canonical(d.value.bytes)
    ensures b == c
  {
    QuoteIsNoDigit(rest);
    HexEscape(SINGLE, ds, n, [SINGLE] + rest);
    assert [BACKSLASH, 'x' as nat] + ds + ([SINGLE] + rest) == [BACKSLASH, 'x' as nat] + ds + [SINGLE] + rest;
    Closed(SINGLE, rest);
    PlainCharacter(SINGLE, n, [SINGLE] + rest');
    assert [n] + ([SINGLE] + rest') == [n, SINGLE] + rest';
    Closed(SINGLE, rest');
    assert [n] + [] == [n];
    LiteralsShareBucket(st, b, c, [n], [n]);
  }

  lemma QuoteIsNoDigit(rest: seq<nat>)
    ensures NoDigit(16, [SINGLE] + rest)
  {}
}

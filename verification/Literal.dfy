/** reader.c, get_literal: quoted literals, decoded and given one canonical spelling. */
module Literal {
  import opened Defs
  import opened SymTab

  const NEWLINE: nat := 10
  const DOUBLE: nat := 34
  const SINGLE: nat := 39
  const BACKSLASH: nat := 92
  const MAXCHAR: nat := 255

  datatype Result<T> = Ok(value: T) | Err

  /** Text yet to be read, after one element or the whole of a literal. */
  datatype Piece = Byte(c: nat, rest: seq<nat>) | Skip(rest: seq<nat>) | End(rest: seq<nat>) | Bad

  datatype Decoded = Decoded(bytes: seq<nat>, rest: seq<nat>)

  predicate IsOctal(c: nat) {
    48 <= c <= 55
  }

  /** hexval: the value of a hexadecimal digit, -1 for other characters. */
  function HexVal(c: nat): int {
    if 48 <= c <= 57 then c - 48 else if 65 <= c <= 70 then c - 55 else if 97 <= c <= 102 then c - 87 else -1
  }

  /** Up to three octal digits, the first given. */
  function Octal(first: nat, t: seq<nat>): Piece
    requires IsOctal(first)
  {
    var n := first - 48;
    if t == [] || !IsOctal(t[0]) then Byte(n, t)
    else
      var m := 8 * n + (t[0] - 48);
      if |t| == 1 || !IsOctal(t[1]) then Byte(m, t[1..])
      else if 8 * m + (t[1] - 48) > MAXCHAR then Bad else Byte(8 * m + (t[1] - 48), t[2..])
  }

  /** The hexadecimal digits after the first, which made n. */
  function Hex(n: nat, t: seq<nat>): Piece
    decreases |t|
  {
    if t == [] || HexVal(t[0]) < 0 then Byte(n, t)
    else
      var m := 16 * n + HexVal(t[0]);
      if m > MAXCHAR then Bad else Hex(m, t[1..])
  }

  /** The escape letters a, b, f, n, r, t, v; any other character stands for itself. */
  function Named(c: nat): nat {
    if c == 97 then 7 else if c == 98 then 8 else if c == 102 then 12 else if c == 110 then 10
    else if c == 114 then 13 else if c == 116 then 9 else if c == 118 then 11 else c
  }

  /** What comes after a backslash. */
  function Escaped(t: seq<nat>): Piece {
    if t == [] then Bad
    else if t[0] == NEWLINE then (if |t| == 1 then Bad else Skip(t[1..]))
    else if IsOctal(t[0]) then Octal(t[0], t[1..])
    else if t[0] == 120 then (if |t| == 1 || HexVal(t[1]) < 0 then Bad else Hex(HexVal(t[1]), t[2..]))
    else Byte(Named(t[0]), t[1..])
  }

  function NextPiece(quote: nat, t: seq<nat>): Piece {
    if t == [] then Bad
    else if t[0] == quote then End(t[1..])
    else if t[0] == NEWLINE then Bad
    else if t[0] == BACKSLASH then Escaped(t[1..])
    else Byte(t[0], t[1..])
  }

  lemma {:induction false} HexShrinks(n: nat, t: seq<nat>)
    ensures Hex(n, t).Bad? || (Hex(n, t).Byte? && |Hex(n, t).rest| <= |t|)
    ensures n <= MAXCHAR && Hex(n, t).Byte? ==> Hex(n, t).c <= MAXCHAR
    decreases |t|
  {
    if t != [] && HexVal(t[0]) >= 0 && 16 * n + HexVal(t[0]) <= MAXCHAR {
      HexShrinks(16 * n + HexVal(t[0]), t[1..]);
    }
  }

  lemma EscapedShrinks(t: seq<nat>)
    ensures var p := Escaped(t); p.Bad? || |p.rest| < |t|
  {
    if |t| > 1 && HexVal(t[1]) >= 0 {
      HexShrinks(HexVal(t[1]), t[2..]);
    }
  }

  lemma PieceShrinks(quote: nat, t: seq<nat>)
    ensures var p := NextPiece(quote, t); p.Bad? || |p.rest| < |t|
  {
    if t != [] {
      EscapedShrinks(t[1..]);
    }
  }

  /** A literal after its opening quote: its bytes, and the text after it. */
  function Decode(quote: nat, t: seq<nat>): Result<Decoded>
    decreases |t|
  {
    PieceShrinks(quote, t);
    match NextPiece(quote, t)
    case Bad => Err
    case End(rest) => Ok(Decoded([], rest))
    case Skip(rest) => Decode(quote, rest)
    case Byte(c, rest) =>
      (match Decode(quote, rest)
       case Err => Err
       case Ok(d) => Ok(Decoded([c] + d.bytes, d.rest)))
  }

  predicate IsPrint(c: nat) {
    32 <= c <= 126
  }

  /** The letter that names a control character, 0 if it has none. */
  function Letter(c: nat): nat {
    if c == 7 then 97 else if c == 8 then 98 else if c == 12 then 102 else if c == 10 then 110
    else if c == 13 then 114 else if c == 9 then 116 else if c == 11 then 118 else 0
  }

  /** The canonical spelling of one byte between quotes. */
  function Spell(quote: nat, c: nat): seq<nat> {
    if c == BACKSLASH || c == quote then [BACKSLASH, c]
    else if IsPrint(c) then [c]
    else if Letter(c) != 0 then [BACKSLASH, Letter(c)]
    else [BACKSLASH, (c / 64) % 8 + 48, (c / 8) % 8 + 48, c % 8 + 48]
  }

  function SpellAll(quote: nat, s: seq<nat>): seq<nat> {
    if s == [] then [] else SpellAll(quote, s[..|s| - 1]) + Spell(quote, s[|s| - 1])
  }

  function QuoteFor(s: seq<nat>): nat {
    if |s| == 1 then SINGLE else DOUBLE
  }

  /** The name of the bucket of a literal. */
  function Canonical(s: seq<nat>): seq<nat> {
    [QuoteFor(s)] + SpellAll(QuoteFor(s), s) + [QuoteFor(s)]
  }

  predicate Bytes(s: seq<nat>) {
    forall k :: 0 <= k < |s| ==> s[k] <= MAXCHAR
  }

  /** One spelled byte is read back, whatever follows. */
  lemma SpellIsRead(quote: nat, c: nat, rest: seq<nat>)
    requires (quote == SINGLE || quote == DOUBLE) && c <= MAXCHAR
    ensures NextPiece(quote, Spell(quote, c) + rest) == Byte(c, rest)
  {
    var t := Spell(quote, c) + rest;
    if c == BACKSLASH || c == quote || (!IsPrint(c) && Letter(c) != 0) {
      assert t[1..][1..] == rest;
    } else if IsPrint(c) {
      assert t[1..] == rest;
    } else {
      OctalIsRead(quote, c, rest);
    }
  }

  /** Three octal digits. */
  lemma OctalIsRead(quote: nat, c: nat, rest: seq<nat>)
    requires (quote == SINGLE || quote == DOUBLE) && c <= MAXCHAR
    ensures NextPiece(quote, [BACKSLASH, (c / 64) % 8 + 48, (c / 8) % 8 + 48, c % 8 + 48] + rest) == Byte(c, rest)
  {
    var t := [BACKSLASH, (c / 64) % 8 + 48, (c / 8) % 8 + 48, c % 8 + 48] + rest;
    assert t[1..][1..][2..] == rest;
    assert 8 * (8 * ((c / 64) % 8) + (c / 8) % 8) + c % 8 == c;
  }

  lemma SpellAllHead(quote: nat, s: seq<nat>)
    requires s != []
    ensures SpellAll(quote, s) == Spell(quote, s[0]) + SpellAll(quote, s[1..])
    decreases |s|
  {
    if |s| > 1 {
      SpellAllHead(quote, s[..|s| - 1]);
      assert s[..|s| - 1][1..] == s[1..][..|s[1..]| - 1];
    } else {
      assert s[..0] == [] && s[1..] == [];
    }
  }

  lemma NothingSpelled(quote: nat, rest: seq<nat>)
    requires quote == SINGLE || quote == DOUBLE
    ensures SpellAll(quote, []) == [] && NextPiece(quote, [quote] + rest) == End(rest)
  {
    assert ([quote] + rest)[1..] == rest;
  }

  /** Round trip: a canonical name decodes to the bytes it was built from. */
  lemma {:induction false} RoundTrip(quote: nat, s: seq<nat>, rest: seq<nat>)
    requires (quote == SINGLE || quote == DOUBLE) && Bytes(s)
    ensures Decode(quote, SpellAll(quote, s) + [quote] + rest) == Ok(Decoded(s, rest))
    decreases |s|
  {
    hide SpellAll, Spell, NextPiece;
    var t := SpellAll(quote, s) + [quote] + rest;
    if s == [] {
      NothingSpelled(quote, rest);
      assert t == [quote] + rest;
      assert t[1..] == rest;
    } else {
      var t' := SpellAll(quote, s[1..]) + [quote] + rest;
      SpellAllHead(quote, s);
      assert t == Spell(quote, s[0]) + t';
      SpellIsRead(quote, s[0], t');
      RoundTrip(quote, s[1..], rest);
      assert [s[0]] + s[1..] == s;
    }
  }

  /** Two literals have the same canonical name exactly when they decode to the same bytes. */
  lemma CanonicalIsExact(s: seq<nat>, t: seq<nat>)
    requires Bytes(s) && Bytes(t)
    ensures Canonical(s) == Canonical(t) <==> s == t
  {
    hide Decode, SpellAll;
    if Canonical(s) == Canonical(t) {
      var q := QuoteFor(s);
      assert Canonical(s)[0] == q && Canonical(t)[0] == QuoteFor(t);
      RoundTrip(q, s, []);
      RoundTrip(q, t, []);
      assert Canonical(s)[1..] == SpellAll(q, s) + [q] + [];
      assert Canonical(t)[1..] == SpellAll(q, t) + [q] + [];
    }
  }

  /** Decoding bytes gives bytes. */
  lemma {:induction false} DecodeBytes(quote: nat, t: seq<nat>)
    requires Bytes(t)
    ensures Decode(quote, t).Ok? ==> Bytes(Decode(quote, t).value.bytes)
    decreases |t|
  {
    PieceShrinks(quote, t);
    PieceBytes(quote, t);
    var p := NextPiece(quote, t);
    if p.Skip? || p.Byte? {
      DecodeBytes(quote, p.rest);
    }
  }

  lemma PieceBytes(quote: nat, t: seq<nat>)
    requires Bytes(t)
    ensures NextPiece(quote, t).Byte? ==> NextPiece(quote, t).c <= MAXCHAR && Bytes(NextPiece(quote, t).rest)
    ensures NextPiece(quote, t).Skip? ==> Bytes(NextPiece(quote, t).rest)
  {
    if t != [] {
      EscapedBytes(t[1..]);
    }
  }

  lemma EscapedBytes(t: seq<nat>)
    requires Bytes(t)
    ensures Escaped(t).Byte? ==> Escaped(t).c <= MAXCHAR && Bytes(Escaped(t).rest)
    ensures Escaped(t).Skip? ==> Bytes(Escaped(t).rest)
  {
    if |t| > 1 && HexVal(t[1]) >= 0 {
      HexShrinks(HexVal(t[1]), t[2..]);
      HexSuffix(HexVal(t[1]), t[2..]);
    }
  }

  lemma {:induction false} HexSuffix(n: nat, t: seq<nat>)
    requires Bytes(t)
    ensures Hex(n, t).Byte? ==> Bytes(Hex(n, t).rest)
    decreases |t|
  {
    if t != [] && HexVal(t[0]) >= 0 && 16 * n + HexVal(t[0]) <= MAXCHAR {
      HexSuffix(16 * n + HexVal(t[0]), t[1..]);
    }
  }

  /** The octal case of get_literal. */
  method ReadOctal(text: seq<nat>, c0: nat, cptr0: nat) returns (ok: bool, n: nat, cptr: nat)
    requires IsOctal(c0) && cptr0 <= |text|
    ensures cptr <= |text| && if ok then Octal(c0, text[cptr0..]) == Byte(n, text[cptr..])
        else Octal(c0, text[cptr0..]).Bad?
  {
    n, cptr := c0 - 48, cptr0;
    if cptr < |text| && IsOctal(text[cptr]) {
      n := 8 * n + (text[cptr] - 48);
      cptr := cptr + 1;
      if cptr < |text| && IsOctal(text[cptr]) {
        n := 8 * n + (text[cptr] - 48);
        cptr := cptr + 1;
      }
    }
    ok := n <= MAXCHAR;
  }

  /** The hexadecimal case. */
  method ReadHex(text: seq<nat>, cptr0: nat) returns (ok: bool, n: nat, cptr: nat)
    requires cptr0 <= |text|
    ensures cptr <= |text|
    ensures var t := text[cptr0..];
            var p := if t == [] || HexVal(t[0]) < 0 then Bad else Hex(HexVal(t[0]), t[1..]);
            if ok then p == Byte(n, text[cptr..]) else p.Bad?
  {
    n, cptr := 0, cptr0;
    if cptr == |text| || HexVal(text[cptr]) < 0 {
      return false, 0, cptr;
    }
    n := HexVal(text[cptr]);
    cptr := cptr + 1;
    ghost var p := Hex(n, text[cptr..]);
    while cptr < |text| && HexVal(text[cptr]) >= 0
      invariant cptr <= |text| && Hex(n, text[cptr..]) == p
    {
      n := 16 * n + HexVal(text[cptr]);
      cptr := cptr + 1;
      if n > MAXCHAR {
        return false, n, cptr;
      }
    }
    ok := true;
  }

  /** After a backslash: the byte it stands for, or a continued line. */
  method ReadEscape(text: seq<nat>, cptr0: nat) returns (ok: bool, skip: bool, c: nat, cptr: nat)
    requires cptr0 <= |text|
    ensures cptr <= |text|
    ensures var p := Escaped(text[cptr0..]);
            if !ok then p.Bad? else if skip then p == Skip(text[cptr..]) else p == Byte(c, text[cptr..])
  {
    ok, skip, c, cptr := true, false, 0, cptr0;
    if cptr == |text| {
      return false, false, 0, cptr;
    }
    c := text[cptr];
    cptr := cptr + 1;
    if c == NEWLINE {
      ok, skip := cptr < |text|, true;
    } else if IsOctal(c) {
      ok, c, cptr := ReadOctal(text, c, cptr);
    } else if c == 120 {
      ok, c, cptr := ReadHex(text, cptr);
    } else {
      c := Named(c);
    }
  }

  /** The first loop of get_literal: the bytes between the quotes. */
  method ReadBytes(text: seq<nat>, start: nat, quote: nat) returns (ok: bool, cache: seq<nat>, cptr: nat)
    requires start <= |text|
    ensures cptr <= |text|
    ensures if ok then Decode(quote, text[start..]) == Ok(Decoded(cache, text[cptr..]))
        else Decode(quote, text[start..]).Err?
  {
    cache, cptr := [], start;
    PrependNone(Decode(quote, text[start..]));
    while true
      invariant start <= cptr <= |text|
      invariant Decode(quote, text[start..]) == Prepended(cache, Decode(quote, text[cptr..]))
      decreases |text| - cptr
    {
      PieceShrinks(quote, text[cptr..]);
      ghost var from := cptr;
      if cptr == |text| {
        return false, cache, cptr;
      }
      var c := text[cptr];
      cptr := cptr + 1;
      if c == quote {
        assert text[from..][1..] == text[cptr..];
        assert cache + [] == cache;
        return true, cache, cptr;
      }
      if c == NEWLINE {
        return false, cache, cptr;
      }
      assert text[from..][1..] == text[cptr..];
      if c == BACKSLASH {
        var fine, skip;
        fine, skip, c, cptr := ReadEscape(text, cptr);
        if !fine {
          return false, cache, cptr;
        }
        if skip {
          continue;
        }
      }
      PrependOne(cache, c, Decode(quote, text[cptr..]));
      cache := cache + [c];
    }
  }

  function Prepended(s: seq<nat>, r: Result<Decoded>): Result<Decoded> {
    match r
    case Err => Err
    case Ok(d) => Ok(Decoded(s + d.bytes, d.rest))
  }

  lemma PrependNone(r: Result<Decoded>)
    ensures Prepended([], r) == r
  {
    if r.Ok? {
      assert [] + r.value.bytes == r.value.bytes;
    }
  }

  lemma PrependOne(s: seq<nat>, c: nat, r: Result<Decoded>)
    ensures Prepended(s, Prepended([c], r)) == Prepended(s + [c], r)
  {
    if r.Ok? {
      assert s + ([c] + r.value.bytes) == s + [c] + r.value.bytes;
    }
  }

  method SpellByte(cache0: seq<nat>, c: nat) returns (cache: seq<nat>)
    requires cache0 != []
    ensures cache == cache0 + Spell(cache0[0], c)
  {
    cache := cache0;
    if c == BACKSLASH || c == cache[0] {
      cache := cache + [BACKSLASH];
      cache := cache + [c];
    } else if IsPrint(c) {
      cache := cache + [c];
    } else {
      cache := cache + [BACKSLASH];
      var letter := Letter(c);
      if letter != 0 {
        cache := cache + [letter];
      } else {
        cache := cache + [(c / 64) % 8 + 48];
        cache := cache + [(c / 8) % 8 + 48];
        cache := cache + [c % 8 + 48];
      }
    }
  }

  /** The second loop: the canonical name of the bytes. */
  method SpellOut(s: seq<nat>) returns (cache: seq<nat>)
    ensures cache == Canonical(s)
  {
    var quote := if |s| == 1 then SINGLE else DOUBLE;
    cache := [quote];
    var i := 0;
    while i < |s|
      invariant i <= |s| && cache == [quote] + SpellAll(quote, s[..i])
    {
      cache := SpellByte(cache, s[i]);
      assert s[..i + 1][..i] == s[..i];
      i := i + 1;
    }
    assert s[..i] == s;
    cache := cache + [quote];
  }

  /** get_literal: the bucket named by the canonical spelling of the literal's bytes; a one-byte
      literal without a value takes its byte. */
  method GetLiteral(text: seq<nat>, start: nat, st: SymbolTable) returns (r: Result<Bucket>, cptr: nat)
    requires start < |text| && (text[start] == SINGLE || text[start] == DOUBLE) && Bytes(text) && st.Valid()
    modifies st, st.table, st.symbols
    ensures cptr <= |text| && st.Valid()
    ensures r.Ok? <==> Decode(text[start], text[start + 1..]).Ok?
    ensures r.Ok? ==>
              var d := Decode(text[start], text[start + 1..]).value;
              && st.Entered(r.value) && r.value.name == Canonical(d.bytes) && r.value.class_ == Term &&
                  d.rest == text[cptr..]
              && st.symbols == old(st.symbols) + (if r.value in old(st.symbols) then [] else [r.value])
              && (if |d.bytes| == 1 && !(r.value in old(st.symbols) && old(r.value.value) != UNDEFINED)
                  then r.value.value == d.bytes[0]
                  else r.value.value == if r.value in old(st.symbols) then old(r.value.value) else UNDEFINED)
    ensures forall b :: b in old(st.symbols) && (r.Ok? ==> b != r.value) ==>
        b.value == old(b.value) && b.class_ == old(b.class_)
    ensures r.Err? ==> st.symbols == old(st.symbols)
  {
    var ok, s;
    DecodeBytes(text[start], text[start + 1..]);
    ok, s, cptr := ReadBytes(text, start + 1, text[start]);
    if !ok {
      return Err, cptr;
    }
    var name := SpellOut(s);
    var bp := st.Lookup(name);
    bp.class_ := Term;
    if |s| == 1 && bp.value == UNDEFINED {
      bp.value := s[0];
    }
    r := Ok(bp);
  }

  /** Two literals share a bucket exactly when they decode to the same bytes, however spelled. */
  lemma LiteralsShareBucket(st: SymbolTable, b: Bucket, c: Bucket, s: seq<nat>, t: seq<nat>)
    requires st.Valid() && st.Entered(b) && st.Entered(c) && Bytes(s) && Bytes(t)
    requires b.name == Canonical(s) && c.name == Canonical(t)
    ensures b == c <==> s == t
  {
    CanonicalIsExact(s, t);
    st.OneBucketPerName(b, c);
  }
}

/** Rows of 32-bit words used as bit sets (the BIT, SETBIT and WORDSIZE macros). */
module BitRows {

  /** An unsigned machine word, as the set of the positions of its one bits. */
  type Word = w: set<nat> | forall b :: b in w ==> b < 32

  function WordSize(n: nat): nat {
    (n + 31) / 32
  }

  /** Bit n of a row (the BIT macro). */
  predicate Bit(row: seq<Word>, n: nat)
    requires n / 32 < |row|
  {
    n % 32 in row[n / 32]
  }

  /** The set a row stands for. */
  ghost function Members(row: seq<Word>): (s: set<nat>) {
    set n: nat | n < 32 * |row| && Bit(row, n)
  }

  lemma OrMembers(x: seq<Word>, y: seq<Word>, z: seq<Word>)
    requires |x| == |y| == |z|
    requires forall k :: 0 <= k < |x| ==> z[k] == x[k] + y[k]
    ensures Members(z) == Members(x) + Members(y)
  {
    forall n: nat | n < 32 * |x|
      ensures Bit(z, n) <==> Bit(x, n) || Bit(y, n)
    {
      assert z[n / 32] == x[n / 32] + y[n / 32];
    }
  }

  /** Setting bit n adds n and nothing else (the SETBIT macro). */
  lemma SetBitMembers(row: seq<Word>, n: nat)
    requires n < 32 * |row|
    ensures Members(row[n / 32 := row[n / 32] + {n % 32}]) == Members(row) + {n}
  {
    var row' := row[n / 32 := row[n / 32] + {n % 32}];
    forall m: nat | m < 32 * |row|
      ensures Bit(row', m) <==> Bit(row, m) || m == n
    {
    }
  }

  lemma ZeroMembers(row: seq<Word>)
    requires forall k :: 0 <= k < |row| ==> row[k] == {}
    ensures Members(row) == {}
  {}

  /** Row i of a bit matrix, as words. */
  ghost function Words(M: array2<Word>, i: nat): seq<Word>
    requires i < M.Length0
    reads M
  {
    seq(M.Length1, k requires 0 <= k < M.Length1 reads M => M[i, k])
  }

  /** A bit matrix as one set per row. */
  ghost function Rows(M: array2<Word>): (rows: seq<set<nat>>)
    reads M
    ensures |rows| == M.Length0
  {
    seq(M.Length0, i requires 0 <= i < M.Length0 reads M => Members(Words(M, i)))
  }

  /** The word storage allocated by NEW2: every bit clear. */
  method NewMatrix(rows: nat, bits: nat) returns (M: array2<Word>)
    ensures fresh(M) && M.Length0 == rows && M.Length1 == WordSize(bits)
    ensures Rows(M) == seq(rows, i => {})
  {
    M := new Word[rows, WordSize(bits)]((i, k) => {});
    forall i: nat | i < rows
      ensures Members(Words(M, i)) == {}
    {
      ZeroMembers(Words(M, i));
    }
  }

  /** Sets one bit through a word cursor and a bit cursor. */
  method SetWordBit(M: array2<Word>, i: nat, word: nat, bit: nat)
    requires i < M.Length0 && word < M.Length1 && bit < 32
    modifies M
    ensures Rows(M) == old(Rows(M))[i := old(Rows(M))[i] + {32 * word + bit}]
  {
    ghost var w := Words(M, i);
    SetBitMembers(w, 32 * word + bit);
    M[i, word] := M[i, word] + {bit};
    assert Words(M, i) == w[word := w[word] + {bit}];
    assert forall a: nat :: a < M.Length0 && a != i ==> Words(M, a) == old(Words(M, a));
  }

  /** SETBIT on row i. */
  method SetBit(M: array2<Word>, i: nat, n: nat)
    requires i < M.Length0 && n < 32 * M.Length1
    modifies M
    ensures Rows(M) == old(Rows(M))[i := old(Rows(M))[i] + {n}]
  {
    SetWordBit(M, i, n / 32, n % 32);
  }

  /** Reading a bit through a word cursor and a bit cursor. */
  lemma WordBit(M: array2<Word>, i: nat, word: nat, bit: nat)
    requires i < M.Length0 && word < M.Length1 && bit < 32
    ensures bit in M[i, word] <==> 32 * word + bit in Rows(M)[i]
  {
    assert Words(M, i)[word] == M[i, word];
    assert bit in M[i, word] <==> Bit(Words(M, i), 32 * word + bit);
  }

  /** BIT on row i. */
  method TestBit(M: array2<Word>, i: nat, n: nat) returns (b: bool)
    requires i < M.Length0 && n < 32 * M.Length1
    ensures b <==> n in Rows(M)[i]
  {
    b := n % 32 in M[i, n / 32];
    WordBit(M, i, n / 32, n % 32);
  }

  /** The word loop that ors row j of S into row i of M; the rows may be the same one. */
  method OrRow(M: array2<Word>, i: nat, S: array2<Word>, j: nat)
    requires i < M.Length0 && j < S.Length0 && M.Length1 == S.Length1
    modifies M
    ensures Rows(M) == old(Rows(M))[i := old(Rows(M))[i] + old(Rows(S))[j]]
  {
    ghost var x, y := Words(M, i), Words(S, j);
    var k := 0;
    while k < M.Length1
      invariant k <= M.Length1
      invariant forall c :: 0 <= c < k ==> M[i, c] == x[c] + y[c]
      invariant forall c :: k <= c < M.Length1 ==> M[i, c] == x[c] && S[j, c] == y[c]
      invariant forall a, c :: 0 <= a < M.Length0 && a != i && 0 <= c < M.Length1 ==> M[a, c] == old(M[a, c])
    {
      M[i, k] := M[i, k] + S[j, k];
      k := k + 1;
    }
    OrMembers(x, y, Words(M, i));
    assert forall a: nat :: a < M.Length0 && a != i ==> Words(M, a) == old(Words(M, a));
  }

  /** The word loop that copies row i over row j. */
  method CopyRow(M: array2<Word>, j: nat, i: nat)
    requires i < M.Length0 && j < M.Length0
    modifies M
    ensures Rows(M) == old(Rows(M))[j := old(Rows(M))[i]]
  {
    ghost var x := Words(M, i);
    var k := 0;
    while k < M.Length1
      invariant k <= M.Length1
      invariant forall c :: 0 <= c < k ==> M[j, c] == x[c]
      invariant forall c :: 0 <= c < M.Length1 ==> M[i, c] == x[c]
      invariant forall a, c :: 0 <= a < M.Length0 && a != j && 0 <= c < M.Length1 ==> M[a, c] == old(M[a, c])
    {
      M[j, k] := M[i, k];
      k := k + 1;
    }
    assert Words(M, j) == x;
    assert forall a: nat :: a < M.Length0 && a != j ==> Words(M, a) == old(Words(M, a));
  }
}

/** The words of the code as the bytes of FIPS-197: the input, the key and the output, section 3.4, and the
    transformations of the state, section 5. */
module AesState {
  import opened AesBytes
  import opened AesField
  import opened AesCipher
  import opened Aes
  import opened AesCode

  /** Byte `r` of a column. */
  function Row(x: bv32, r: nat): bv8
    requires r < 4
  {
    if r == 0 then B0(x) else if r == 1 then B1(x) else if r == 2 then B2(x) else B3(x)
  }

  function Column(s: Block, c: nat): bv32
    requires c < 4
  {
    if c == 0 then s.c0 else if c == 1 then s.c1 else if c == 2 then s.c2 else s.c3
  }

  /** Byte `r` of column `c` of the state. */
  function At(s: Block, r: nat, c: nat): bv8
    requires r < 4 && c < 4
  {
    Row(Column(s, c), r)
  }

  lemma RowOfWord(a: bv8, b: bv8, c: bv8, d: bv8, r: nat)
    requires r < 4
    ensures Row(Word(a, b, c, d), r) == [a, b, c, d][r]
  {
    hide B0, B1, B2, B3, Word;
    WordBytes(a, b, c, d);
  }

  // Section 3.4: the bytes of a block go down the columns

  /** Byte `r` of word `i` is byte `4i + r` of the sequence. */
  lemma WordAt(b: seq<bv8>, i: nat, r: nat)
    requires 4 * i + 3 < |b| && r < 4
    ensures Row(LoadWord(b, i), r) == b[4 * i + r]
  {
    hide Row, Word;
    RowOfWord(b[4 * i], b[4 * i + 1], b[4 * i + 2], b[4 * i + 3], r);
  }

  lemma InputAt(b: seq<bv8>, r: nat, c: nat)
    requires |b| == 16 && r < 4 && c < 4
    ensures At(Load(b), r, c) == b[r + 4 * c]
  {
    hide Row, LoadWord;
    WordAt(b, c, r);
  }

  lemma OutputAt(s: Block, r: nat, c: nat)
    requires r < 4 && c < 4
    ensures |Store(s)| == 16 && Store(s)[r + 4 * c] == At(s, r, c)
  {
    hide Row, StoreWord;
    StoredAt(s.c0, r);
    StoredAt(s.c1, r);
    StoredAt(s.c2, r);
    StoredAt(s.c3, r);
    Joined(StoreWord(s.c0), StoreWord(s.c1), StoreWord(s.c2), StoreWord(s.c3), r, c);
  }

  lemma Joined(p: seq<bv8>, q: seq<bv8>, u: seq<bv8>, v: seq<bv8>, r: nat, c: nat)
    requires |p| == |q| == |u| == |v| == 4 && r < 4 && c < 4
    ensures (p + q + u + v)[r + 4 * c] == if c == 0 then p[r] else if c == 1 then q[r] else if c == 2 then u[r] else v[r]
  {}

  lemma StoredAt(x: bv32, r: nat)
    requires r < 4
    ensures |StoreWord(x)| == 4 && StoreWord(x)[r] == Row(x, r)
  {
    hide B0, B1, B2, B3;
  }

  /** The first words of the schedule are the bytes of the key, in order. */
  lemma KeyAtStart(inKey: seq<bv8>, i: nat, r: nat)
    requires |inKey| in {16, 24, 32} && i < |inKey| / 4 && r < 4
    ensures Row(Schedule(inKey)[i], r) == inKey[4 * i + r]
  {
    hide Row, LoadWord;
    WordAt(inKey, i, r);
    KeyItself(LoadWords(inKey));
  }

  // Section 5.1: the transformations, byte by byte

  lemma SubBytesAt(s: Block, r: nat, c: nat)
    requires r < 4 && c < 4
    ensures At(SubBytes(s), r, c) == Sub(At(s, r, c))
  {
    hide Row, Sub, SubColumn;
    SubRow(Column(s, c), r);
  }

  lemma SubRow(x: bv32, r: nat)
    requires r < 4
    ensures Row(SubColumn(x), r) == Sub(Row(x, r))
  {
    hide Sub, B0, B1, B2, B3, Word;
    WordBytes(Sub(B0(x)), Sub(B1(x)), Sub(B2(x)), Sub(B3(x)));
  }

  /** A column made of one byte from each of four columns. */
  function Diagonal(p: bv32, q: bv32, u: bv32, v: bv32): bv32 { Word(B0(p), B1(q), B2(u), B3(v)) }

  lemma DiagonalRow(p: bv32, q: bv32, u: bv32, v: bv32, r: nat)
    requires r < 4
    ensures Row(Diagonal(p, q, u, v), r) == Row(if r == 0 then p else if r == 1 then q else if r == 2 then u else v, r)
  {
    hide B0, B1, B2, B3, Word;
    WordBytes(B0(p), B1(q), B2(u), B3(v));
  }

  lemma ShiftedColumns(s: Block)
    ensures ShiftRows(s).c0 == Diagonal(s.c0, s.c1, s.c2, s.c3) && ShiftRows(s).c1 == Diagonal(s.c1, s.c2, s.c3, s.c0)
    ensures ShiftRows(s).c2 == Diagonal(s.c2, s.c3, s.c0, s.c1) && ShiftRows(s).c3 == Diagonal(s.c3, s.c0, s.c1, s.c2)
  {
    hide B0, B1, B2, B3, Word;
  }

  /** Row `r` moves `r` places to the left, section 5.1.2. */
  lemma ShiftRowsAt(s: Block, r: nat, c: nat)
    requires r < 4 && c < 4
    ensures At(ShiftRows(s), r, c) == At(s, r, (c + r) % 4)
  {
    hide Row, ShiftRows, Diagonal;
    ShiftedColumns(s);
    if c == 0 {
      DiagonalRow(s.c0, s.c1, s.c2, s.c3, r);
    } else if c == 1 {
      DiagonalRow(s.c1, s.c2, s.c3, s.c0, r);
    } else if c == 2 {
      DiagonalRow(s.c2, s.c3, s.c0, s.c1, r);
    } else {
      DiagonalRow(s.c3, s.c0, s.c1, s.c2, r);
    }
  }

  lemma Rows(x: bv32)
    ensures Row(x, 0) == B0(x) && Row(x, 1) == B1(x) && Row(x, 2) == B2(x) && Row(x, 3) == B3(x)
  {
    hide B0, B1, B2, B3;
  }

  /** Each byte of a column is {02} times itself, {03} times the next, and the other two, section 5.1.3. */
  lemma MixColumnsAt(s: Block, r: nat, c: nat)
    requires r < 4 && c < 4
    ensures At(MixColumns(s), r, c)
      == Add4(Xtime(At(s, r, c)), Mul3(At(s, (r + 1) % 4, c)), At(s, (r + 2) % 4, c), At(s, (r + 3) % 4, c))
  {
    hide Row, MixColumn, Add4, Xtime, Mul3;
    MixRow(Column(s, c), r);
  }

  lemma MixRow(x: bv32, r: nat)
    requires r < 4
    ensures Row(MixColumn(x), r) == Add4(Xtime(Row(x, r)), Mul3(Row(x, (r + 1) % 4)), Row(x, (r + 2) % 4), Row(x, (r + 3) % 4))
  {
    hide Row, B0, B1, B2, B3, Word, Xtime, Mul3, Add4;
    Rows(x);
    var p, q, u, v := B0(x), B1(x), B2(x), B3(x);
    RowOfWord(Add4(Xtime(p), Mul3(q), u, v), Add4(p, Xtime(q), Mul3(u), v),
              Add4(p, q, Xtime(u), Mul3(v)), Add4(Mul3(p), q, u, Xtime(v)), r);
    if r == 1 {
      Cyclic(p, Xtime(q), Mul3(u), v);
    } else if r == 2 {
      Cyclic(p, q, Xtime(u), Mul3(v));
    } else if r == 3 {
      Cyclic(Mul3(p), q, u, Xtime(v));
    }
  }

  lemma AddRoundKeyAt(s: Block, k: Block, r: nat, c: nat)
    requires r < 4 && c < 4
    ensures At(AddRoundKey(s, k), r, c) == Add(At(s, r, c), At(k, r, c))
  {
    hide Row, Plus, Add;
    AddRow(Column(s, c), Column(k, c), r);
  }

  lemma AddRow(x: bv32, y: bv32, r: nat)
    requires r < 4
    ensures Row(Plus(x, y), r) == Add(Row(x, r), Row(y, r))
  {
    hide Row, B0, B1, B2, B3, Plus, Add;
    BytesAdd(x, y);
    Rows(x);
    Rows(y);
    Rows(Plus(x, y));
  }

  /** RotWord of section 5.2: byte `r` is the next byte of the word. */
  lemma RotAt(x: bv32, r: nat)
    requires r < 4
    ensures Row(Ror8(x), r) == Row(x, (r + 1) % 4)
  {
    hide B0, B1, B2, B3, Ror8;
    RorBytes(x);
  }

  /** The round constant is in the first byte. */
  lemma RconAt(j: nat, r: nat)
    requires r < 4
    ensures Row(Rcon(j), r) == if r == 0 then RconByte(j) else 0
  {
    hide Row, Word, RconByte;
    RowOfWord(RconByte(j), 0, 0, 0, r);
  }

  // The cipher of section 5.1, figure 5

  /** `st[r]` is the state after round `r`, the last round excepted. */
  ghost predicate Trace(w: seq<bv32>, nr: nat, s: Block, st: seq<Block>) {
    && |w| == 4 * (nr + 1) && |st| == nr > 0 && st[0] == AddRoundKey(s, KeyAt(w, 0))
    && forall r :: 0 < r < nr ==> st[r] == AddRoundKey(MixColumns(ShiftRows(SubBytes(st[r - 1]))), KeyAt(w, r))
  }

  function States(w: seq<bv32>, s: Block, n: nat): (st: seq<Block>)
    requires 4 * n + 3 < |w|
    ensures |st| == n + 1
  {
    if n == 0 then [s] else States(w, s, n - 1) + [Rounds(w, s, n)]
  }

  lemma {:induction false} StatesAt(w: seq<bv32>, s: Block, n: nat, r: nat)
    requires r <= n && 4 * n + 3 < |w|
    ensures States(w, s, n)[r] == Rounds(w, s, r)
  {
    hide AddRoundKey, MixColumns, ShiftRows, SubBytes, KeyAt;
    if r < n {
      StatesAt(w, s, n - 1, r);
    }
  }

  /** The cipher adds the first key, does all rounds but one in full, and the last one without MixColumns. */
  lemma CipherIsTrace(w: seq<bv32>, nr: nat, s: Block) returns (st: seq<Block>)
    requires nr > 0 && |w| == 4 * (nr + 1)
    ensures Trace(w, nr, s, st) && Cipher(w, nr, s) == AddRoundKey(ShiftRows(SubBytes(st[nr - 1])), KeyAt(w, nr))
  {
    hide AddRoundKey, MixColumns, ShiftRows, SubBytes, KeyAt;
    var s0 := AddRoundKey(s, KeyAt(w, 0));
    st := States(w, s0, nr - 1);
    forall r | 0 <= r < nr
      ensures st[r] == Rounds(w, s0, r)
    {
      StatesAt(w, s0, nr - 1, r);
    }
  }
}

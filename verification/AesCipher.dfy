/** The rounds of AES: the table code is the cipher of FIPS-197, and decryption undoes encryption. */
module AesCipher {
  import opened AesTables
  import opened AesBytes
  import opened AesField

  /** The state, column by column. */
  datatype Block = Block(c0: bv32, c1: bv32, c2: bv32, c3: bv32)

  // The transformations of section 5.1

  function SubColumn(x: bv32): bv32 { Word(Sub(B0(x)), Sub(B1(x)), Sub(B2(x)), Sub(B3(x))) }

  function SubBytes(s: Block): Block { Block(SubColumn(s.c0), SubColumn(s.c1), SubColumn(s.c2), SubColumn(s.c3)) }

  /** Row r moves r columns to the left. */
  function ShiftRows(s: Block): Block {
    Block(Word(B0(s.c0), B1(s.c1), B2(s.c2), B3(s.c3)), Word(B0(s.c1), B1(s.c2), B2(s.c3), B3(s.c0)),
          Word(B0(s.c2), B1(s.c3), B2(s.c0), B3(s.c1)), Word(B0(s.c3), B1(s.c0), B2(s.c1), B3(s.c2)))
  }

  function MixColumns(s: Block): Block { Block(MixColumn(s.c0), MixColumn(s.c1), MixColumn(s.c2), MixColumn(s.c3)) }

  function AddRoundKey(s: Block, k: Block): Block {
    Block(Plus(s.c0, k.c0), Plus(s.c1, k.c1), Plus(s.c2, k.c2), Plus(s.c3, k.c3))
  }

  // Their inverses, section 5.3

  function InvSubColumn(x: bv32): bv32 { Word(InvSub(B0(x)), InvSub(B1(x)), InvSub(B2(x)), InvSub(B3(x))) }

  function InvSubBytes(s: Block): Block {
    Block(InvSubColumn(s.c0), InvSubColumn(s.c1), InvSubColumn(s.c2), InvSubColumn(s.c3))
  }

  function InvShiftRows(s: Block): Block {
    Block(Word(B0(s.c0), B1(s.c3), B2(s.c2), B3(s.c1)), Word(B0(s.c1), B1(s.c0), B2(s.c3), B3(s.c2)),
          Word(B0(s.c2), B1(s.c1), B2(s.c0), B3(s.c3)), Word(B0(s.c3), B1(s.c2), B2(s.c1), B3(s.c0)))
  }

  function InvMixColumns(s: Block): Block {
    Block(InvMixColumn(s.c0), InvMixColumn(s.c1), InvMixColumn(s.c2), InvMixColumn(s.c3))
  }

  // The table code

  function FCol(a: bv32, b: bv32, c: bv32, d: bv32): bv32 {
    Plus(Plus(Plus(Ft0(B0(a)), Ft1(B1(b))), Ft2(B2(c))), Ft3(B3(d)))
  }

  function FlCol(a: bv32, b: bv32, c: bv32, d: bv32): bv32 {
    Plus(Plus(Plus(Fl0(B0(a)), Fl1(B1(b))), Fl2(B2(c))), Fl3(B3(d)))
  }

  function ICol(a: bv32, b: bv32, c: bv32, d: bv32): bv32 {
    Plus(Plus(Plus(It0(B0(a)), It1(B1(b))), It2(B2(c))), It3(B3(d)))
  }

  function IlCol(a: bv32, b: bv32, c: bv32, d: bv32): bv32 {
    Plus(Plus(Plus(Il0(B0(a)), Il1(B1(b))), Il2(B2(c))), Il3(B3(d)))
  }

  /** f_nround */
  function FRound(s: Block, k: Block): Block {
    Block(Plus(FCol(s.c0, s.c1, s.c2, s.c3), k.c0), Plus(FCol(s.c1, s.c2, s.c3, s.c0), k.c1),
          Plus(FCol(s.c2, s.c3, s.c0, s.c1), k.c2), Plus(FCol(s.c3, s.c0, s.c1, s.c2), k.c3))
  }

  /** f_lround */
  function FLast(s: Block, k: Block): Block {
    Block(Plus(FlCol(s.c0, s.c1, s.c2, s.c3), k.c0), Plus(FlCol(s.c1, s.c2, s.c3, s.c0), k.c1),
          Plus(FlCol(s.c2, s.c3, s.c0, s.c1), k.c2), Plus(FlCol(s.c3, s.c0, s.c1, s.c2), k.c3))
  }

  /** i_nround */
  function IRound(s: Block, k: Block): Block {
    Block(Plus(ICol(s.c0, s.c3, s.c2, s.c1), k.c0), Plus(ICol(s.c1, s.c0, s.c3, s.c2), k.c1),
          Plus(ICol(s.c2, s.c1, s.c0, s.c3), k.c2), Plus(ICol(s.c3, s.c2, s.c1, s.c0), k.c3))
  }

  /** i_lround */
  function ILast(s: Block, k: Block): Block {
    Block(Plus(IlCol(s.c0, s.c3, s.c2, s.c1), k.c0), Plus(IlCol(s.c1, s.c0, s.c3, s.c2), k.c1),
          Plus(IlCol(s.c2, s.c1, s.c0, s.c3), k.c2), Plus(IlCol(s.c3, s.c2, s.c1, s.c0), k.c3))
  }

  lemma FColIsMix(a: bv32, b: bv32, c: bv32, d: bv32)
    ensures FCol(a, b, c, d) == MixColumn(Word(Sub(B0(a)), Sub(B1(b)), Sub(B2(c)), Sub(B3(d))))
  {
    hide Ft0, Ft1, Ft2, Ft3, Sub, B0, B1, B2, B3, Word, Plus, Xtime, Mul3, Add;
    FtTable0(B0(a));
    FtTable1(B1(b));
    FtTable2(B2(c));
    FtTable3(B3(d));
    var p, q, r, s := Sub(B0(a)), Sub(B1(b)), Sub(B2(c)), Sub(B3(d));
    WordBytes(p, q, r, s);
    WordAdd(Xtime(p), p, p, Mul3(p), Mul3(q), Xtime(q), q, q);
    WordAdd(Add(Xtime(p), Mul3(q)), Add(p, Xtime(q)), Add(p, q), Add(Mul3(p), q), r, Mul3(r), Xtime(r), r);
    WordAdd(Add(Add(Xtime(p), Mul3(q)), r), Add(Add(p, Xtime(q)), Mul3(r)), Add(Add(p, q), Xtime(r)), Add(Add(Mul3(p), q), r),
            s, s, Mul3(s), Xtime(s));
  }

  lemma Alone(p: bv8)
    ensures Add(p, 0) == p && Add(0, p) == p
  {}

  /** Four bytes put together one by one. */
  lemma Gathered(p: bv8, q: bv8, r: bv8, s: bv8)
    ensures Plus(Plus(Plus(Word(p, 0, 0, 0), Word(0, q, 0, 0)), Word(0, 0, r, 0)), Word(0, 0, 0, s)) == Word(p, q, r, s)
  {
    hide Word, Plus, Add;
    Alone(p);
    Alone(q);
    Alone(r);
    Alone(s);
    Alone(0);
    WordAdd(p, 0, 0, 0, 0, q, 0, 0);
    WordAdd(p, q, 0, 0, 0, 0, r, 0);
    WordAdd(p, q, r, 0, 0, 0, 0, s);
  }

  lemma FlColIsSub(a: bv32, b: bv32, c: bv32, d: bv32)
    ensures FlCol(a, b, c, d) == Word(Sub(B0(a)), Sub(B1(b)), Sub(B2(c)), Sub(B3(d)))
  {
    hide Fl0, Fl1, Fl2, Fl3, Sub, B0, B1, B2, B3, Word, Plus;
    FlTable0(B0(a));
    FlTable1(B1(b));
    FlTable2(B2(c));
    FlTable3(B3(d));
    Gathered(Sub(B0(a)), Sub(B1(b)), Sub(B2(c)), Sub(B3(d)));
  }

  lemma IlColIsSub(a: bv32, b: bv32, c: bv32, d: bv32)
    ensures IlCol(a, b, c, d) == Word(InvSub(B0(a)), InvSub(B1(b)), InvSub(B2(c)), InvSub(B3(d)))
  {
    hide Il0, Il1, Il2, Il3, InvSub, B0, B1, B2, B3, Word, Plus;
    IlTable0(B0(a));
    IlTable1(B1(b));
    IlTable2(B2(c));
    IlTable3(B3(d));
    Gathered(InvSub(B0(a)), InvSub(B1(b)), InvSub(B2(c)), InvSub(B3(d)));
  }

  lemma IColIsMix(a: bv32, b: bv32, c: bv32, d: bv32)
    ensures ICol(a, b, c, d) == InvMixColumn(Word(InvSub(B0(a)), InvSub(B1(b)), InvSub(B2(c)), InvSub(B3(d))))
  {
    hide It0, It1, It2, It3, InvSub, B0, B1, B2, B3, Word, Plus, Mul9, MulB, MulD, MulE, Add;
    ItTable0(B0(a));
    ItTable1(B1(b));
    ItTable2(B2(c));
    ItTable3(B3(d));
    var p, q, r, s := InvSub(B0(a)), InvSub(B1(b)), InvSub(B2(c)), InvSub(B3(d));
    WordBytes(p, q, r, s);
    WordAdd(MulE(p), Mul9(p), MulD(p), MulB(p), MulB(q), MulE(q), Mul9(q), MulD(q));
    WordAdd(Add(MulE(p), MulB(q)), Add(Mul9(p), MulE(q)), Add(MulD(p), Mul9(q)), Add(MulB(p), MulD(q)),
            MulD(r), MulB(r), MulE(r), Mul9(r));
    WordAdd(Add(Add(MulE(p), MulB(q)), MulD(r)), Add(Add(Mul9(p), MulE(q)), MulB(r)),
            Add(Add(MulD(p), Mul9(q)), MulE(r)), Add(Add(MulB(p), MulD(q)), Mul9(r)), Mul9(s), MulD(s), MulB(s), MulE(s));
  }

  lemma SubWord(a: bv8, b: bv8, c: bv8, d: bv8)
    ensures SubColumn(Word(a, b, c, d)) == Word(Sub(a), Sub(b), Sub(c), Sub(d))
    ensures InvSubColumn(Word(a, b, c, d)) == Word(InvSub(a), InvSub(b), InvSub(c), InvSub(d))
  {
    hide Sub, InvSub, Word, B0, B1, B2, B3;
    WordBytes(a, b, c, d);
  }

  lemma SubWords(s: Block)
    ensures var t := ShiftRows(s);
      && SubColumn(t.c0) == Word(Sub(B0(s.c0)), Sub(B1(s.c1)), Sub(B2(s.c2)), Sub(B3(s.c3)))
      && SubColumn(t.c1) == Word(Sub(B0(s.c1)), Sub(B1(s.c2)), Sub(B2(s.c3)), Sub(B3(s.c0)))
      && SubColumn(t.c2) == Word(Sub(B0(s.c2)), Sub(B1(s.c3)), Sub(B2(s.c0)), Sub(B3(s.c1)))
      && SubColumn(t.c3) == Word(Sub(B0(s.c3)), Sub(B1(s.c0)), Sub(B2(s.c1)), Sub(B3(s.c2)))
  {
    hide Sub, InvSub, Word, B0, B1, B2, B3, SubColumn, InvSubColumn;
    SubWord(B0(s.c0), B1(s.c1), B2(s.c2), B3(s.c3));
    SubWord(B0(s.c1), B1(s.c2), B2(s.c3), B3(s.c0));
    SubWord(B0(s.c2), B1(s.c3), B2(s.c0), B3(s.c1));
    SubWord(B0(s.c3), B1(s.c0), B2(s.c1), B3(s.c2));
  }

  lemma InvSubWords(s: Block)
    ensures var t := InvShiftRows(s);
      && InvSubColumn(t.c0) == Word(InvSub(B0(s.c0)), InvSub(B1(s.c3)), InvSub(B2(s.c2)), InvSub(B3(s.c1)))
      && InvSubColumn(t.c1) == Word(InvSub(B0(s.c1)), InvSub(B1(s.c0)), InvSub(B2(s.c3)), InvSub(B3(s.c2)))
      && InvSubColumn(t.c2) == Word(InvSub(B0(s.c2)), InvSub(B1(s.c1)), InvSub(B2(s.c0)), InvSub(B3(s.c3)))
      && InvSubColumn(t.c3) == Word(InvSub(B0(s.c3)), InvSub(B1(s.c2)), InvSub(B2(s.c1)), InvSub(B3(s.c0)))
  {
    hide Sub, InvSub, Word, B0, B1, B2, B3, SubColumn, InvSubColumn;
    SubWord(B0(s.c0), B1(s.c3), B2(s.c2), B3(s.c1));
    SubWord(B0(s.c1), B1(s.c0), B2(s.c3), B3(s.c2));
    SubWord(B0(s.c2), B1(s.c1), B2(s.c0), B3(s.c3));
    SubWord(B0(s.c3), B1(s.c2), B2(s.c1), B3(s.c0));
  }

  /** Substituting bytes and moving them commute. */
  lemma SubShift(s: Block)
    ensures SubBytes(ShiftRows(s)) == ShiftRows(SubBytes(s))
  {
    hide Sub, Word, B0, B1, B2, B3, SubColumn;
    SubWords(s);
    ColumnBytes(s.c0);
    ColumnBytes(s.c1);
    ColumnBytes(s.c2);
    ColumnBytes(s.c3);
  }

  lemma ColumnBytes(x: bv32)
    ensures B0(SubColumn(x)) == Sub(B0(x)) && B1(SubColumn(x)) == Sub(B1(x))
    ensures B2(SubColumn(x)) == Sub(B2(x)) && B3(SubColumn(x)) == Sub(B3(x))
  {
    hide Sub, Word, B0, B1, B2, B3;
    WordBytes(Sub(B0(x)), Sub(B1(x)), Sub(B2(x)), Sub(B3(x)));
  }

  /** A table round is the round of section 5.1. */
  lemma FRoundIsRound(s: Block, k: Block)
    ensures FRound(s, k) == AddRoundKey(MixColumns(ShiftRows(SubBytes(s))), k)
  {
    hide FCol, Sub, Word, B0, B1, B2, B3, SubColumn, MixColumn, Plus, ShiftRows;
    SubShift(s);
    SubWords(s);
    FColIsMix(s.c0, s.c1, s.c2, s.c3);
    FColIsMix(s.c1, s.c2, s.c3, s.c0);
    FColIsMix(s.c2, s.c3, s.c0, s.c1);
    FColIsMix(s.c3, s.c0, s.c1, s.c2);
  }

  lemma FLastIsRound(s: Block, k: Block)
    ensures FLast(s, k) == AddRoundKey(ShiftRows(SubBytes(s)), k)
  {
    hide FlCol, Sub, Word, B0, B1, B2, B3, SubColumn, Plus, ShiftRows;
    SubShift(s);
    SubWords(s);
    FlColIsSub(s.c0, s.c1, s.c2, s.c3);
    FlColIsSub(s.c1, s.c2, s.c3, s.c0);
    FlColIsSub(s.c2, s.c3, s.c0, s.c1);
    FlColIsSub(s.c3, s.c0, s.c1, s.c2);
  }

  /** An inverse table round is the round of the equivalent inverse cipher, section 5.3.5. */
  lemma IRoundIsRound(s: Block, k: Block)
    ensures IRound(s, k) == AddRoundKey(InvMixColumns(InvSubBytes(InvShiftRows(s))), k)
  {
    hide ICol, InvSub, Word, B0, B1, B2, B3, InvSubColumn, InvMixColumn, Plus, InvShiftRows;
    InvSubWords(s);
    IColIsMix(s.c0, s.c3, s.c2, s.c1);
    IColIsMix(s.c1, s.c0, s.c3, s.c2);
    IColIsMix(s.c2, s.c1, s.c0, s.c3);
    IColIsMix(s.c3, s.c2, s.c1, s.c0);
  }

  lemma ILastIsRound(s: Block, k: Block)
    ensures ILast(s, k) == AddRoundKey(InvSubBytes(InvShiftRows(s)), k)
  {
    hide IlCol, InvSub, Word, B0, B1, B2, B3, InvSubColumn, Plus, InvShiftRows;
    InvSubWords(s);
    IlColIsSub(s.c0, s.c3, s.c2, s.c1);
    IlColIsSub(s.c1, s.c0, s.c3, s.c2);
    IlColIsSub(s.c2, s.c1, s.c0, s.c3);
    IlColIsSub(s.c3, s.c2, s.c1, s.c0);
  }

  // Inverses

  lemma ShiftInverts(s: Block)
    ensures InvShiftRows(ShiftRows(s)) == s
  {
    hide Word, B0, B1, B2, B3;
    WordBytes(B0(s.c0), B1(s.c1), B2(s.c2), B3(s.c3));
    WordBytes(B0(s.c1), B1(s.c2), B2(s.c3), B3(s.c0));
    WordBytes(B0(s.c2), B1(s.c3), B2(s.c0), B3(s.c1));
    WordBytes(B0(s.c3), B1(s.c0), B2(s.c1), B3(s.c2));
    BytesWord(s.c0);
    BytesWord(s.c1);
    BytesWord(s.c2);
    BytesWord(s.c3);
  }

  lemma SubColumnInverts(x: bv32)
    ensures InvSubColumn(SubColumn(x)) == x
  {
    hide Sub, InvSub, Word, B0, B1, B2, B3;
    SubWord(Sub(B0(x)), Sub(B1(x)), Sub(B2(x)), Sub(B3(x)));
    InvSubInverts(B0(x));
    InvSubInverts(B1(x));
    InvSubInverts(B2(x));
    InvSubInverts(B3(x));
    BytesWord(x);
  }

  /** What the inverse tables undo. */
  lemma SubShiftInverts(s: Block)
    ensures InvSubBytes(InvShiftRows(ShiftRows(SubBytes(s)))) == s
  {
    hide SubColumn, InvSubColumn, ShiftRows, InvShiftRows;
    ShiftInverts(SubBytes(s));
    SubColumnInverts(s.c0);
    SubColumnInverts(s.c1);
    SubColumnInverts(s.c2);
    SubColumnInverts(s.c3);
  }

  lemma PlusCancels(x: bv32, k: bv32)
    ensures Plus(Plus(x, k), k) == x
  {}

  lemma AddRoundKeyInverts(s: Block, k: Block)
    ensures AddRoundKey(AddRoundKey(s, k), k) == s
  {
    hide Plus;
    PlusCancels(s.c0, k.c0);
    PlusCancels(s.c1, k.c1);
    PlusCancels(s.c2, k.c2);
    PlusCancels(s.c3, k.c3);
  }

  lemma InvMixColumnsInverts(s: Block, k: Block)
    ensures AddRoundKey(InvMixColumns(AddRoundKey(MixColumns(s), k)), InvMixColumns(k)) == s
  {
    hide Plus, MixColumn, InvMixColumn;
    ColumnBack(s.c0, k.c0);
    ColumnBack(s.c1, k.c1);
    ColumnBack(s.c2, k.c2);
    ColumnBack(s.c3, k.c3);
  }

  lemma ColumnBack(x: bv32, k: bv32)
    ensures Plus(InvMixColumn(Plus(MixColumn(x), k)), InvMixColumn(k)) == x
  {
    hide Plus, MixColumn, InvMixColumn;
    InvMixLinear(MixColumn(x), k);
    InvMixInverts(x);
    PlusCancels(x, InvMixColumn(k));
  }

  /** One inverse round undoes the mixing of the round before, given the transformed key. */
  lemma RoundBack(s: Block, k: Block)
    ensures IRound(ShiftRows(SubBytes(FRound(s, k))), InvMixColumns(k)) == ShiftRows(SubBytes(s))
  {
    hide IRound, FRound, ShiftRows, SubBytes, AddRoundKey, InvMixColumns, MixColumns, InvSubBytes, InvShiftRows;
    var t := FRound(s, k);
    FRoundIsRound(s, k);
    IRoundIsRound(ShiftRows(SubBytes(t)), InvMixColumns(k));
    SubShiftInverts(t);
    InvMixColumnsInverts(ShiftRows(SubBytes(s)), k);
  }

  // The other way round

  lemma ShiftsBack(s: Block)
    ensures ShiftRows(InvShiftRows(s)) == s
  {
    hide Word, B0, B1, B2, B3;
    WordBytes(B0(s.c0), B1(s.c3), B2(s.c2), B3(s.c1));
    WordBytes(B0(s.c1), B1(s.c0), B2(s.c3), B3(s.c2));
    WordBytes(B0(s.c2), B1(s.c1), B2(s.c0), B3(s.c3));
    WordBytes(B0(s.c3), B1(s.c2), B2(s.c1), B3(s.c0));
    BytesWord(s.c0);
    BytesWord(s.c1);
    BytesWord(s.c2);
    BytesWord(s.c3);
  }

  lemma InvSubColumnInverts(x: bv32)
    ensures SubColumn(InvSubColumn(x)) == x
  {
    hide Sub, InvSub, Word, B0, B1, B2, B3;
    WordBytes(InvSub(B0(x)), InvSub(B1(x)), InvSub(B2(x)), InvSub(B3(x)));
    SubInverts(B0(x));
    SubInverts(B1(x));
    SubInverts(B2(x));
    SubInverts(B3(x));
    BytesWord(x);
  }

  lemma ShiftSubInverts(s: Block)
    ensures ShiftRows(SubBytes(InvSubBytes(InvShiftRows(s)))) == s
  {
    hide SubColumn, InvSubColumn, ShiftRows, InvShiftRows;
    var t := InvShiftRows(s);
    InvSubColumnInverts(t.c0);
    InvSubColumnInverts(t.c1);
    InvSubColumnInverts(t.c2);
    InvSubColumnInverts(t.c3);
    ShiftsBack(s);
  }

  lemma MixColumnsInverts(s: Block, k: Block)
    ensures AddRoundKey(MixColumns(AddRoundKey(InvMixColumns(s), InvMixColumns(k))), k) == s
  {
    hide Plus, MixColumn, InvMixColumn;
    ColumnForth(s.c0, k.c0);
    ColumnForth(s.c1, k.c1);
    ColumnForth(s.c2, k.c2);
    ColumnForth(s.c3, k.c3);
  }

  lemma ColumnForth(x: bv32, k: bv32)
    ensures Plus(MixColumn(Plus(InvMixColumn(x), InvMixColumn(k))), k) == x
  {
    hide Plus, MixColumn, InvMixColumn;
    InvMixLinear(x, k);
    MixInverts(Plus(x, k));
    PlusCancels(x, k);
  }
}

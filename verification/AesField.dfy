/** What the lookup tables hold, and the columns of FIPS-197, sections 5.1.3 and 5.3.3. */
module AesField {
  import opened AesTables
  import opened AesBytes

  // Words

  function B0(x: bv32): bv8 { (x & 0xff) as bv8 }
  function B1(x: bv32): bv8 { ((x >> 8) & 0xff) as bv8 }
  function B2(x: bv32): bv8 { ((x >> 16) & 0xff) as bv8 }
  function B3(x: bv32): bv8 { (x >> 24) as bv8 }

  function Word(b0: bv8, b1: bv8, b2: bv8, b3: bv8): bv32 {
    (b0 as bv32) | ((b1 as bv32) << 8) | ((b2 as bv32) << 16) | ((b3 as bv32) << 24)
  }

  lemma WordBytes(a: bv8, b: bv8, c: bv8, d: bv8)
    ensures B0(Word(a, b, c, d)) == a && B1(Word(a, b, c, d)) == b && B2(Word(a, b, c, d)) == c && B3(Word(a, b, c, d)) == d
  {}

  lemma BytesWord(x: bv32)
    ensures Word(B0(x), B1(x), B2(x), B3(x)) == x
  {}

  /** The S-box and its inverse, as the tables of the last round hold them. */
  function Sub(x: bv8): bv8 { B0(Fl0(x)) }

  function InvSub(x: bv8): bv8 { B0(Il0(x)) }

  /** The S-box is the one of section 5.1.1: the affine image of the multiplicative inverse. */
  lemma SubIsAffineInverse(x: bv8)
    ensures Sub(x) == Affine(Unaffine(Sub(x)))
    ensures x != 0 ==> Mul(x, Unaffine(Sub(x))) == 1
    ensures x == 0 ==> Unaffine(Sub(x)) == 0
  {
    hide Sub, Affine, Unaffine, Mul;
    UnaffineInverts(Sub(x));
    SubInverse(x);
  }

  lemma SubInverse(x: bv8)
    ensures x != 0 ==> Mul(x, Unaffine(Sub(x))) == 1
    ensures x == 0 ==> Unaffine(Sub(x)) == 0
  {
    hide Sub, Unaffine, Mul;
    if x < 0x80 {
      SubInverseLow(x);
    } else {
      SubInverseHigh(x);
    }
  }

  lemma SubInverseLow(x: bv8)
    requires x < 0x80
    ensures x != 0 ==> Mul(x, Unaffine(Sub(x))) == 1
    ensures x == 0 ==> Unaffine(Sub(x)) == 0
  {}

  lemma SubInverseHigh(x: bv8)
    requires x >= 0x80
    ensures Mul(x, Unaffine(Sub(x))) == 1
  {}

  lemma InvSubInverts(x: bv8)
    ensures InvSub(Sub(x)) == x
  {}

  lemma SubInverts(x: bv8)
    ensures Sub(InvSub(x)) == x
  {}

  // Tables

  lemma FtTable0(x: bv8)
    ensures Ft0(x) == Word(Xtime(Sub(x)), Sub(x), Sub(x), Mul3(Sub(x)))
  {}

  lemma FtTable1(x: bv8)
    ensures Ft1(x) == Word(Mul3(Sub(x)), Xtime(Sub(x)), Sub(x), Sub(x))
  {}

  lemma FtTable2(x: bv8)
    ensures Ft2(x) == Word(Sub(x), Mul3(Sub(x)), Xtime(Sub(x)), Sub(x))
  {}

  lemma FtTable3(x: bv8)
    ensures Ft3(x) == Word(Sub(x), Sub(x), Mul3(Sub(x)), Xtime(Sub(x)))
  {}

  lemma FlTable0(x: bv8)
    ensures Fl0(x) == Word(Sub(x), 0, 0, 0)
  {}

  lemma FlTable1(x: bv8)
    ensures Fl1(x) == Word(0, Sub(x), 0, 0)
  {}

  lemma FlTable2(x: bv8)
    ensures Fl2(x) == Word(0, 0, Sub(x), 0)
  {}

  lemma FlTable3(x: bv8)
    ensures Fl3(x) == Word(0, 0, 0, Sub(x))
  {}

  lemma ItTable0(x: bv8)
    ensures var s := InvSub(x); It0(x) == Word(MulE(s), Mul9(s), MulD(s), MulB(s))
  {}

  lemma ItTable1(x: bv8)
    ensures var s := InvSub(x); It1(x) == Word(MulB(s), MulE(s), Mul9(s), MulD(s))
  {}

  lemma ItTable2(x: bv8)
    ensures var s := InvSub(x); It2(x) == Word(MulD(s), MulB(s), MulE(s), Mul9(s))
  {}

  lemma ItTable3(x: bv8)
    ensures var s := InvSub(x); It3(x) == Word(Mul9(s), MulD(s), MulB(s), MulE(s))
  {}

  lemma IlTable0(x: bv8)
    ensures Il0(x) == Word(InvSub(x), 0, 0, 0)
  {}

  lemma IlTable1(x: bv8)
    ensures Il1(x) == Word(0, InvSub(x), 0, 0)
  {}

  lemma IlTable2(x: bv8)
    ensures Il2(x) == Word(0, 0, InvSub(x), 0)
  {}

  lemma IlTable3(x: bv8)
    ensures Il3(x) == Word(0, 0, 0, InvSub(x))
  {}

  // Columns

  /** MixColumns on one column, section 5.1.3. */
  function MixColumn(x: bv32): bv32 {
    var a, b, c, d := B0(x), B1(x), B2(x), B3(x);
    Word(Add4(Xtime(a), Mul3(b), c, d), Add4(a, Xtime(b), Mul3(c), d),
         Add4(a, b, Xtime(c), Mul3(d)), Add4(Mul3(a), b, c, Xtime(d)))
  }

  /** InvMixColumns on one column, section 5.3.3. */
  function InvMixColumn(x: bv32): bv32 {
    var a, b, c, d := B0(x), B1(x), B2(x), B3(x);
    Word(Add4(MulE(a), MulB(b), MulD(c), Mul9(d)), Add4(Mul9(a), MulE(b), MulB(c), MulD(d)),
         Add4(MulD(a), Mul9(b), MulE(c), MulB(d)), Add4(MulB(a), MulD(b), Mul9(c), MulE(d)))
  }

  /** Addition of words. */
  function Plus(x: bv32, y: bv32): bv32 { x ^ y }

  lemma BytesAdd(x: bv32, y: bv32)
    ensures B0(Plus(x, y)) == Add(B0(x), B0(y)) && B1(Plus(x, y)) == Add(B1(x), B1(y))
    ensures B2(Plus(x, y)) == Add(B2(x), B2(y)) && B3(Plus(x, y)) == Add(B3(x), B3(y))
  {
    hide B0, B1, B2, B3;
    BytesXor(x, y);
  }

  lemma BytesXor(x: bv32, y: bv32)
    ensures B0(x ^ y) == B0(x) ^ B0(y) && B1(x ^ y) == B1(x) ^ B1(y)
    ensures B2(x ^ y) == B2(x) ^ B2(y) && B3(x ^ y) == B3(x) ^ B3(y)
  {}

  lemma WordAdd(a: bv8, b: bv8, c: bv8, d: bv8, e: bv8, f: bv8, g: bv8, h: bv8)
    ensures Plus(Word(a, b, c, d), Word(e, f, g, h)) == Word(Add(a, e), Add(b, f), Add(c, g), Add(d, h))
  {}

  lemma InvMixLinear(x: bv32, y: bv32)
    ensures InvMixColumn(Plus(x, y)) == Plus(InvMixColumn(x), InvMixColumn(y))
  {
    hide B0, B1, B2, B3, Word, Mul9, MulB, MulD, MulE, Add, Add4, Plus;
    BytesAdd(x, y);
    var a, b, c, d := B0(x), B1(x), B2(x), B3(x);
    var e, f, g, h := B0(y), B1(y), B2(y), B3(y);
    MulLinear(a, e);
    MulLinear(b, f);
    MulLinear(c, g);
    MulLinear(d, h);
    Pairs4(MulE(a), MulE(e), MulB(b), MulB(f), MulD(c), MulD(g), Mul9(d), Mul9(h));
    Pairs4(Mul9(a), Mul9(e), MulE(b), MulE(f), MulB(c), MulB(g), MulD(d), MulD(h));
    Pairs4(MulD(a), MulD(e), Mul9(b), Mul9(f), MulE(c), MulE(g), MulB(d), MulB(h));
    Pairs4(MulB(a), MulB(e), MulD(b), MulD(f), Mul9(c), Mul9(g), MulE(d), MulE(h));
    WordAdd(Add4(MulE(a), MulB(b), MulD(c), Mul9(d)), Add4(Mul9(a), MulE(b), MulB(c), MulD(d)),
            Add4(MulD(a), Mul9(b), MulE(c), MulB(d)), Add4(MulB(a), MulD(b), Mul9(c), MulE(d)),
            Add4(MulE(e), MulB(f), MulD(g), Mul9(h)), Add4(Mul9(e), MulE(f), MulB(g), MulD(h)),
            Add4(MulD(e), Mul9(f), MulE(g), MulB(h)), Add4(MulB(e), MulD(f), Mul9(g), MulE(h)));
  }

  // The two matrices are inverse

  lemma InvMixInverts(x: bv32)
    ensures InvMixColumn(MixColumn(x)) == x
  {
    hide B0, B1, B2, B3, Word, Xtime, Mul3, Mul9, MulB, MulD, MulE, Add4;
    var a, b, c, d := B0(x), B1(x), B2(x), B3(x);
    var p, q := Add4(Xtime(a), Mul3(b), c, d), Add4(a, Xtime(b), Mul3(c), d);
    var r, s := Add4(a, b, Xtime(c), Mul3(d)), Add4(Mul3(a), b, c, Xtime(d));
    WordBytes(p, q, r, s);
    Cycles(a, b, c, d);
    RowInverts(a, b, c, d);
    RowInverts(b, c, d, a);
    RowInverts(c, d, a, b);
    RowInverts(d, a, b, c);
    Cyclic(MulE(q), MulB(r), MulD(s), Mul9(p));
    Cyclic(MulE(r), MulB(s), MulD(p), Mul9(q));
    Cyclic(MulE(s), MulB(p), MulD(q), Mul9(r));
    BytesWord(x);
  }

  lemma MixInverts(x: bv32)
    ensures MixColumn(InvMixColumn(x)) == x
  {
    hide B0, B1, B2, B3, Word, Xtime, Mul3, Mul9, MulB, MulD, MulE, Add4;
    var a, b, c, d := B0(x), B1(x), B2(x), B3(x);
    var p, q := Add4(MulE(a), MulB(b), MulD(c), Mul9(d)), Add4(Mul9(a), MulE(b), MulB(c), MulD(d));
    var r, s := Add4(MulD(a), Mul9(b), MulE(c), MulB(d)), Add4(MulB(a), MulD(b), Mul9(c), MulE(d));
    WordBytes(p, q, r, s);
    MixCycles(a, b, c, d);
    RowMixes(a, b, c, d);
    RowMixes(b, c, d, a);
    RowMixes(c, d, a, b);
    RowMixes(d, a, b, c);
    Cyclic(Xtime(q), Mul3(r), s, p);
    Cyclic(Xtime(r), Mul3(s), p, q);
    Cyclic(Xtime(s), Mul3(p), q, r);
    BytesWord(x);
  }

  /** Four bytes doubled at once. */
  function StarX(x: bv32): bv32 { ((x & 0x7f7f7f7f) << 1) ^ (((x & 0x80808080) >> 7) * 0x1b) }

  lemma StarXDoubles(x: bv32)
    ensures B0(StarX(x)) == Xtime(B0(x)) && B1(StarX(x)) == Xtime(B1(x))
    ensures B2(StarX(x)) == Xtime(B2(x)) && B3(StarX(x)) == Xtime(B3(x))
  {}

  function Ror8(x: bv32): bv32 { (x >> 8) | (x << 24) }
  function Ror16(x: bv32): bv32 { (x >> 16) | (x << 16) }
  function Ror24(x: bv32): bv32 { (x >> 24) | (x << 8) }

  lemma RorBytes(x: bv32)
    ensures B0(Ror8(x)) == B1(x) && B1(Ror8(x)) == B2(x) && B2(Ror8(x)) == B3(x) && B3(Ror8(x)) == B0(x)
    ensures B0(Ror16(x)) == B2(x) && B1(Ror16(x)) == B3(x) && B2(Ror16(x)) == B0(x) && B3(Ror16(x)) == B1(x)
    ensures B0(Ror24(x)) == B3(x) && B1(Ror24(x)) == B0(x) && B2(Ror24(x)) == B1(x) && B3(Ror24(x)) == B2(x)
  {}

  /** imix_col */
  function ImixCol(x: bv32): bv32 {
    var u := StarX(x);
    var v := StarX(u);
    var w := StarX(v);
    var t := Plus(w, x);
    Plus(Plus(Plus(u, v), w), Plus(Plus(Ror8(Plus(u, t)), Ror16(Plus(v, t))), Ror24(t)))
  }

  /** The bytes of imix_col: a sum over the column and its doubles. */
  lemma ImixBytes(x: bv32)
    ensures var a, b, c, d := B0(x), B1(x), B2(x), B3(x);
      && B0(ImixCol(x)) == Add4(MulE(a), MulB(b), MulD(c), Mul9(d)) && B1(ImixCol(x)) == Add4(MulE(b), MulB(c), MulD(d), Mul9(a))
      && B2(ImixCol(x)) == Add4(MulE(c), MulB(d), MulD(a), Mul9(b)) && B3(ImixCol(x)) == Add4(MulE(d), MulB(a), MulD(b), Mul9(c))
  {
    hide B0, B1, B2, B3, Xtime, StarX, Ror8, Ror16, Ror24, Add, Add3, Add4, Plus, Mul9, MulB, MulD, MulE;
    var u := StarX(x);
    var v := StarX(u);
    var w := StarX(v);
    var t := Plus(w, x);
    StarXDoubles(x);
    StarXDoubles(u);
    StarXDoubles(v);
    BytesAdd(w, x);
    BytesAdd(u, v);
    BytesAdd(Plus(u, v), w);
    BytesAdd(u, t);
    BytesAdd(v, t);
    RorBytes(Plus(u, t));
    RorBytes(Plus(v, t));
    RorBytes(t);
    var r := Plus(Ror8(Plus(u, t)), Ror16(Plus(v, t)));
    BytesAdd(Ror8(Plus(u, t)), Ror16(Plus(v, t)));
    BytesAdd(r, Ror24(t));
    BytesAdd(Plus(Plus(u, v), w), Plus(r, Ror24(t)));
    ImixByte(B0(x), B1(x), B2(x), B3(x));
    ImixByte(B1(x), B2(x), B3(x), B0(x));
    ImixByte(B2(x), B3(x), B0(x), B1(x));
    ImixByte(B3(x), B0(x), B1(x), B2(x));
  }

  lemma ImixColIsInvMix(x: bv32)
    ensures ImixCol(x) == InvMixColumn(x)
  {
    hide B0, B1, B2, B3, Word, Add4, Mul9, MulB, MulD, MulE, ImixCol;
    ImixBytes(x);
    var a, b, c, d := B0(x), B1(x), B2(x), B3(x);
    Cyclic(MulE(b), MulB(c), MulD(d), Mul9(a));
    Cyclic(MulE(c), MulB(d), MulD(a), Mul9(b));
    Cyclic(MulE(d), MulB(a), MulD(b), Mul9(c));
    BytesWord(ImixCol(x));
  }
}

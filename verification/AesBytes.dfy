/** The byte arithmetic of FIPS-197, sections 4 and 5.1.1. */
module AesBytes {

  /** Multiplication by {02}. */
  function Xtime(a: bv8): bv8 { (a << 1) ^ ((a >> 7) * 0x1b) }

  /** Addition of bytes. */
  function Add(a: bv8, b: bv8): bv8 { a ^ b }
  function Add3(a: bv8, b: bv8, c: bv8): bv8 { Add(Add(a, b), c) }
  function Add4(a: bv8, b: bv8, c: bv8, d: bv8): bv8 { Add(Add3(a, b, c), d) }

  function Mul4(a: bv8): bv8 { Xtime(Xtime(a)) }
  function Mul8(a: bv8): bv8 { Xtime(Mul4(a)) }
  function Mul3(a: bv8): bv8 { Xtime(a) ^ a }
  function Mul9(a: bv8): bv8 { Mul8(a) ^ a }
  function MulB(a: bv8): bv8 { Mul8(a) ^ Xtime(a) ^ a }
  function MulD(a: bv8): bv8 { Mul8(a) ^ Mul4(a) ^ a }
  function MulE(a: bv8): bv8 { Mul8(a) ^ Mul4(a) ^ Xtime(a) }

  /** `a` if bit `m` of `b` is set. */
  function Term(a: bv8, b: bv8, m: bv8): bv8 { if b & m == 0 then 0 else a }

  /** Multiplication of two bytes. */
  function Mul(a: bv8, b: bv8): bv8 {
    var a1 := Xtime(a); var a2 := Xtime(a1); var a3 := Xtime(a2);
    var a4 := Xtime(a3); var a5 := Xtime(a4); var a6 := Xtime(a5); var a7 := Xtime(a6);
    Term(a, b, 1) ^ Term(a1, b, 2) ^ Term(a2, b, 4) ^ Term(a3, b, 8)
    ^ Term(a4, b, 16) ^ Term(a5, b, 32) ^ Term(a6, b, 64) ^ Term(a7, b, 128)
  }

  /** The affine transformation of section 5.1.1. */
  function Affine(b: bv8): bv8 {
    b ^ ((b << 1) | (b >> 7)) ^ ((b << 2) | (b >> 6)) ^ ((b << 3) | (b >> 5)) ^ ((b << 4) | (b >> 4)) ^ 0x63
  }

  function Unaffine(s: bv8): bv8 {
    ((s << 1) | (s >> 7)) ^ ((s << 3) | (s >> 5)) ^ ((s << 6) | (s >> 2)) ^ 0x05
  }

  lemma UnaffineInverts(s: bv8)
    ensures Affine(Unaffine(s)) == s
  {}

  // Sums rearranged

  lemma AddComm(a: bv8, b: bv8)
    ensures Add(a, b) == Add(b, a)
  {}

  lemma AddAssoc(a: bv8, b: bv8, c: bv8)
    ensures Add(Add(a, b), c) == Add(a, Add(b, c))
  {}

  lemma Pairs2(a: bv8, b: bv8, c: bv8, d: bv8)
    ensures Add(Add(a, b), Add(c, d)) == Add(Add(a, c), Add(b, d))
  {
    hide Add;
    AddAssoc(a, b, Add(c, d));
    AddAssoc(b, c, d);
    AddComm(b, c);
    AddAssoc(c, b, d);
    AddAssoc(a, c, Add(b, d));
  }

  lemma Pairs3(a: bv8, b: bv8, c: bv8, d: bv8, e: bv8, f: bv8)
    ensures Add3(Add(a, b), Add(c, d), Add(e, f)) == Add(Add3(a, c, e), Add3(b, d, f))
  {
    hide Add;
    Pairs2(a, b, c, d);
    Pairs2(Add(a, c), Add(b, d), e, f);
  }

  lemma Pairs4(a: bv8, b: bv8, c: bv8, d: bv8, e: bv8, f: bv8, g: bv8, h: bv8)
    ensures Add4(Add(a, b), Add(c, d), Add(e, f), Add(g, h)) == Add(Add4(a, c, e, g), Add4(b, d, f, h))
  {
    hide Add, Add3;
    Pairs3(a, b, c, d, e, f);
    Pairs2(Add3(a, c, e), Add3(b, d, f), g, h);
  }

  lemma Transposed(a0: bv8, a1: bv8, a2: bv8, a3: bv8, b0: bv8, b1: bv8, b2: bv8, b3: bv8,
                   c0: bv8, c1: bv8, c2: bv8, c3: bv8, d0: bv8, d1: bv8, d2: bv8, d3: bv8)
    ensures Add4(Add4(a0, a1, a2, a3), Add4(b0, b1, b2, b3), Add4(c0, c1, c2, c3), Add4(d0, d1, d2, d3))
      == Add4(Add4(a0, b0, c0, d0), Add4(a1, b1, c1, d1), Add4(a2, b2, c2, d2), Add4(a3, b3, c3, d3))
  {
    hide Add;
    Pairs4(Add3(a0, a1, a2), a3, Add3(b0, b1, b2), b3, Add3(c0, c1, c2), c3, Add3(d0, d1, d2), d3);
    Pairs4(Add(a0, a1), a2, Add(b0, b1), b2, Add(c0, c1), c2, Add(d0, d1), d2);
    Pairs4(a0, a1, b0, b1, c0, c1, d0, d1);
  }

  lemma AddZeros(a: bv8)
    ensures Add4(a, 0, 0, 0) == a
  {}

  lemma Turned(a: bv8, b: bv8, c: bv8, d: bv8)
    ensures Add4(a, b, c, d) == Add4(b, c, d, a)
  {
    hide Add;
    AddAssoc(a, b, c);
    AddAssoc(a, Add(b, c), d);
    AddComm(a, Add3(b, c, d));
  }

  lemma Cyclic(a: bv8, b: bv8, c: bv8, d: bv8)
    ensures Add4(a, b, c, d) == Add4(b, c, d, a) == Add4(c, d, a, b) == Add4(d, a, b, c)
  {
    hide Add4;
    Turned(a, b, c, d);
    Turned(b, c, d, a);
    Turned(c, d, a, b);
  }

  // Multiplication by a constant is linear

  lemma XtimeLinear(a: bv8, b: bv8)
    ensures Xtime(Add(a, b)) == Add(Xtime(a), Xtime(b))
  {
    hide Xtime;
    XtimeXor(a, b);
  }

  lemma XtimeXor(a: bv8, b: bv8)
    ensures Xtime(a ^ b) == Xtime(a) ^ Xtime(b)
  {}

  lemma Sum9(a: bv8)
    ensures Mul9(a) == Add(Mul8(a), a)
  {
    hide Mul8;
  }

  lemma SumB(a: bv8)
    ensures MulB(a) == Add3(Mul8(a), Xtime(a), a)
  {
    hide Xtime, Mul8;
  }

  lemma SumD(a: bv8)
    ensures MulD(a) == Add3(Mul8(a), Mul4(a), a)
  {
    hide Mul4, Mul8;
  }

  lemma SumE(a: bv8)
    ensures MulE(a) == Add3(Mul8(a), Mul4(a), Xtime(a))
  {
    hide Xtime, Mul4, Mul8;
  }

  lemma MulSums(a: bv8)
    ensures Mul9(a) == Add(Mul8(a), a) && MulB(a) == Add3(Mul8(a), Xtime(a), a)
    ensures MulD(a) == Add3(Mul8(a), Mul4(a), a) && MulE(a) == Add3(Mul8(a), Mul4(a), Xtime(a))
  {
    hide Xtime, Mul4, Mul8, Mul9, MulB, MulD, MulE, Add, Add3;
    Sum9(a);
    SumB(a);
    SumD(a);
    SumE(a);
  }

  lemma EightLinear(a: bv8, b: bv8)
    ensures Mul4(Add(a, b)) == Add(Mul4(a), Mul4(b)) && Mul8(Add(a, b)) == Add(Mul8(a), Mul8(b))
  {
    hide Xtime, Add;
    XtimeLinear(a, b);
    XtimeLinear(Xtime(a), Xtime(b));
    XtimeLinear(Mul4(a), Mul4(b));
  }

  lemma MulLinear(a: bv8, b: bv8)
    ensures Mul9(Add(a, b)) == Add(Mul9(a), Mul9(b)) && MulB(Add(a, b)) == Add(MulB(a), MulB(b))
    ensures MulD(Add(a, b)) == Add(MulD(a), MulD(b)) && MulE(Add(a, b)) == Add(MulE(a), MulE(b))
  {
    hide Xtime, Add, Add3, Mul4, Mul8, Mul9, MulB, MulD, MulE;
    MulSums(a);
    MulSums(b);
    MulSums(Add(a, b));
    XtimeLinear(a, b);
    EightLinear(a, b);
    Pairs2(Mul8(a), Mul8(b), a, b);
    Pairs3(Mul8(a), Mul8(b), Xtime(a), Xtime(b), a, b);
    Pairs3(Mul8(a), Mul8(b), Mul4(a), Mul4(b), a, b);
    Pairs3(Mul8(a), Mul8(b), Mul4(a), Mul4(b), Xtime(a), Xtime(b));
  }

  lemma Add4Xor(a: bv8, b: bv8, c: bv8, d: bv8)
    ensures Add4(a, b, c, d) == a ^ b ^ c ^ d
  {}

  lemma Cancel0(a: bv8)
    ensures MulE(Xtime(a)) ^ MulB(a) ^ MulD(a) ^ Mul9(Mul3(a)) == a
  {}

  lemma Cancel1(a: bv8)
    ensures MulE(Mul3(a)) ^ MulB(Xtime(a)) ^ MulD(a) ^ Mul9(a) == 0
  {}

  lemma Cancel2(a: bv8)
    ensures MulE(a) ^ MulB(Mul3(a)) ^ MulD(Xtime(a)) ^ Mul9(a) == 0
  {}

  lemma Cancel3(a: bv8)
    ensures MulE(a) ^ MulB(a) ^ MulD(Mul3(a)) ^ Mul9(Xtime(a)) == 0
  {}

  /** The coefficients of the two matrices cancel. */
  lemma Cancel(a: bv8)
    ensures Add4(MulE(Xtime(a)), MulB(a), MulD(a), Mul9(Mul3(a))) == a
    ensures Add4(MulE(Mul3(a)), MulB(Xtime(a)), MulD(a), Mul9(a)) == 0
    ensures Add4(MulE(a), MulB(Mul3(a)), MulD(Xtime(a)), Mul9(a)) == 0
    ensures Add4(MulE(a), MulB(a), MulD(Mul3(a)), Mul9(Xtime(a))) == 0
  {
    hide Xtime, Mul3, Mul9, MulB, MulD, MulE, Add4;
    Cancel0(a);
    Cancel1(a);
    Cancel2(a);
    Cancel3(a);
    Add4Xor(MulE(Xtime(a)), MulB(a), MulD(a), Mul9(Mul3(a)));
    Add4Xor(MulE(Mul3(a)), MulB(Xtime(a)), MulD(a), Mul9(a));
    Add4Xor(MulE(a), MulB(Mul3(a)), MulD(Xtime(a)), Mul9(a));
    Add4Xor(MulE(a), MulB(a), MulD(Mul3(a)), Mul9(Xtime(a)));
  }

  lemma MulAdd4(p: bv8, q: bv8, r: bv8, s: bv8)
    ensures MulE(Add4(p, q, r, s)) == Add4(MulE(p), MulE(q), MulE(r), MulE(s))
    ensures MulB(Add4(p, q, r, s)) == Add4(MulB(p), MulB(q), MulB(r), MulB(s))
    ensures MulD(Add4(p, q, r, s)) == Add4(MulD(p), MulD(q), MulD(r), MulD(s))
    ensures Mul9(Add4(p, q, r, s)) == Add4(Mul9(p), Mul9(q), Mul9(r), Mul9(s))
  {
    hide Mul9, MulB, MulD, MulE, Add;
    MulLinear(Add3(p, q, r), s);
    MulLinear(Add(p, q), r);
    MulLinear(p, q);
  }

  /** One byte of a column mixed and mixed back. */
  lemma RowInverts(a: bv8, b: bv8, c: bv8, d: bv8)
    ensures Add4(MulE(Add4(Xtime(a), Mul3(b), c, d)), MulB(Add4(a, Xtime(b), Mul3(c), d)),
                 MulD(Add4(a, b, Xtime(c), Mul3(d))), Mul9(Add4(Mul3(a), b, c, Xtime(d)))) == a
  {
    hide Xtime, Mul3, Mul9, MulB, MulD, MulE, Add4;
    MulAdd4(Xtime(a), Mul3(b), c, d);
    MulAdd4(a, Xtime(b), Mul3(c), d);
    MulAdd4(a, b, Xtime(c), Mul3(d));
    MulAdd4(Mul3(a), b, c, Xtime(d));
    Transposed(MulE(Xtime(a)), MulE(Mul3(b)), MulE(c), MulE(d), MulB(a), MulB(Xtime(b)), MulB(Mul3(c)), MulB(d),
               MulD(a), MulD(b), MulD(Xtime(c)), MulD(Mul3(d)), Mul9(Mul3(a)), Mul9(b), Mul9(c), Mul9(Xtime(d)));
    Cancel(a);
    Cancel(b);
    Cancel(c);
    Cancel(d);
    AddZeros(a);
  }

  lemma Cycles(a: bv8, b: bv8, c: bv8, d: bv8)
    ensures var p, q := Add4(Xtime(a), Mul3(b), c, d), Add4(a, Xtime(b), Mul3(c), d);
      var r, s := Add4(a, b, Xtime(c), Mul3(d)), Add4(Mul3(a), b, c, Xtime(d));
      && Add4(Xtime(b), Mul3(c), d, a) == q && Add4(b, Xtime(c), Mul3(d), a) == r
      && Add4(b, c, Xtime(d), Mul3(a)) == s && Add4(Mul3(b), c, d, Xtime(a)) == p
      && Add4(Xtime(c), Mul3(d), a, b) == r && Add4(c, Xtime(d), Mul3(a), b) == s
      && Add4(c, d, Xtime(a), Mul3(b)) == p && Add4(Mul3(c), d, a, Xtime(b)) == q
      && Add4(Xtime(d), Mul3(a), b, c) == s && Add4(d, Xtime(a), Mul3(b), c) == p
      && Add4(d, a, Xtime(b), Mul3(c)) == q && Add4(Mul3(d), a, b, Xtime(c)) == r
  {
    hide Xtime, Mul3, Add4;
    Cyclic(Xtime(a), Mul3(b), c, d);
    Cyclic(a, Xtime(b), Mul3(c), d);
    Cyclic(a, b, Xtime(c), Mul3(d));
    Cyclic(Mul3(a), b, c, Xtime(d));
  }

  lemma MixCancel0(a: bv8)
    ensures Xtime(MulE(a)) ^ Mul3(Mul9(a)) ^ MulD(a) ^ MulB(a) == a
  {}

  lemma MixCancel1(a: bv8)
    ensures Xtime(MulB(a)) ^ Mul3(MulE(a)) ^ Mul9(a) ^ MulD(a) == 0
  {}

  lemma MixCancel2(a: bv8)
    ensures Xtime(MulD(a)) ^ Mul3(MulB(a)) ^ MulE(a) ^ Mul9(a) == 0
  {}

  lemma MixCancel3(a: bv8)
    ensures Xtime(Mul9(a)) ^ Mul3(MulD(a)) ^ MulB(a) ^ MulE(a) == 0
  {}

  /** They cancel the other way round too. */
  lemma MixCancel(a: bv8)
    ensures Add4(Xtime(MulE(a)), Mul3(Mul9(a)), MulD(a), MulB(a)) == a
    ensures Add4(Xtime(MulB(a)), Mul3(MulE(a)), Mul9(a), MulD(a)) == 0
    ensures Add4(Xtime(MulD(a)), Mul3(MulB(a)), MulE(a), Mul9(a)) == 0
    ensures Add4(Xtime(Mul9(a)), Mul3(MulD(a)), MulB(a), MulE(a)) == 0
  {
    hide Xtime, Mul3, Mul9, MulB, MulD, MulE, Add4;
    MixCancel0(a);
    MixCancel1(a);
    MixCancel2(a);
    MixCancel3(a);
    Add4Xor(Xtime(MulE(a)), Mul3(Mul9(a)), MulD(a), MulB(a));
    Add4Xor(Xtime(MulB(a)), Mul3(MulE(a)), Mul9(a), MulD(a));
    Add4Xor(Xtime(MulD(a)), Mul3(MulB(a)), MulE(a), Mul9(a));
    Add4Xor(Xtime(Mul9(a)), Mul3(MulD(a)), MulB(a), MulE(a));
  }

  lemma Sum3(a: bv8)
    ensures Mul3(a) == Add(Xtime(a), a)
  {
    hide Xtime;
  }

  lemma Mul3Linear(a: bv8, b: bv8)
    ensures Mul3(Add(a, b)) == Add(Mul3(a), Mul3(b))
  {
    hide Xtime, Mul3, Add;
    Sum3(a);
    Sum3(b);
    Sum3(Add(a, b));
    XtimeLinear(a, b);
    Pairs2(Xtime(a), a, Xtime(b), b);
  }

  lemma MixAdd4(p: bv8, q: bv8, r: bv8, s: bv8)
    ensures Xtime(Add4(p, q, r, s)) == Add4(Xtime(p), Xtime(q), Xtime(r), Xtime(s))
    ensures Mul3(Add4(p, q, r, s)) == Add4(Mul3(p), Mul3(q), Mul3(r), Mul3(s))
  {
    hide Xtime, Mul3, Add;
    XtimeLinear(Add3(p, q, r), s);
    XtimeLinear(Add(p, q), r);
    XtimeLinear(p, q);
    Mul3Linear(Add3(p, q, r), s);
    Mul3Linear(Add(p, q), r);
    Mul3Linear(p, q);
  }

  /** One byte of a column mixed back and mixed. */
  lemma RowMixes(a: bv8, b: bv8, c: bv8, d: bv8)
    ensures Add4(Xtime(Add4(MulE(a), MulB(b), MulD(c), Mul9(d))), Mul3(Add4(Mul9(a), MulE(b), MulB(c), MulD(d))),
                 Add4(MulD(a), Mul9(b), MulE(c), MulB(d)), Add4(MulB(a), MulD(b), Mul9(c), MulE(d))) == a
  {
    hide Xtime, Mul3, Mul9, MulB, MulD, MulE, Add4;
    MixAdd4(MulE(a), MulB(b), MulD(c), Mul9(d));
    MixAdd4(Mul9(a), MulE(b), MulB(c), MulD(d));
    Transposed(Xtime(MulE(a)), Xtime(MulB(b)), Xtime(MulD(c)), Xtime(Mul9(d)),
               Mul3(Mul9(a)), Mul3(MulE(b)), Mul3(MulB(c)), Mul3(MulD(d)),
               MulD(a), Mul9(b), MulE(c), MulB(d), MulB(a), MulD(b), Mul9(c), MulE(d));
    MixCancel(a);
    MixCancel(b);
    MixCancel(c);
    MixCancel(d);
    AddZeros(a);
  }

  lemma MixCycles(a: bv8, b: bv8, c: bv8, d: bv8)
    ensures var p, q := Add4(MulE(a), MulB(b), MulD(c), Mul9(d)), Add4(Mul9(a), MulE(b), MulB(c), MulD(d));
      var r, s := Add4(MulD(a), Mul9(b), MulE(c), MulB(d)), Add4(MulB(a), MulD(b), Mul9(c), MulE(d));
      && Add4(MulE(b), MulB(c), MulD(d), Mul9(a)) == q && Add4(Mul9(b), MulE(c), MulB(d), MulD(a)) == r
      && Add4(MulD(b), Mul9(c), MulE(d), MulB(a)) == s && Add4(MulB(b), MulD(c), Mul9(d), MulE(a)) == p
      && Add4(MulE(c), MulB(d), MulD(a), Mul9(b)) == r && Add4(Mul9(c), MulE(d), MulB(a), MulD(b)) == s
      && Add4(MulD(c), Mul9(d), MulE(a), MulB(b)) == p && Add4(MulB(c), MulD(d), Mul9(a), MulE(b)) == q
      && Add4(MulE(d), MulB(a), MulD(b), Mul9(c)) == s && Add4(Mul9(d), MulE(a), MulB(b), MulD(c)) == p
      && Add4(MulD(d), Mul9(a), MulE(b), MulB(c)) == q && Add4(MulB(d), MulD(a), Mul9(b), MulE(c)) == r
  {
    hide Mul9, MulB, MulD, MulE, Add4;
    Cyclic(MulE(a), MulB(b), MulD(c), Mul9(d));
    Cyclic(Mul9(a), MulE(b), MulB(c), MulD(d));
    Cyclic(MulD(a), Mul9(b), MulE(c), MulB(d));
    Cyclic(MulB(a), MulD(b), Mul9(c), MulE(d));
  }

  /** One byte of imix_col: what its rotations bring together. */
  lemma ImixByte(a: bv8, b: bv8, c: bv8, d: bv8)
    ensures var u, v, w := Xtime(a), Mul4(a), Mul8(a);
      Add(Add(Add(u, v), w), Add(Add(Add(Xtime(b), Add(Mul8(b), b)), Add(Mul4(c), Add(Mul8(c), c))), Add(Mul8(d), d)))
      == Add4(MulE(a), MulB(b), MulD(c), Mul9(d))
  {
    hide Xtime, Mul4, Mul8, Mul9, MulB, MulD, MulE, Add;
    MulSums(a);
    MulSums(b);
    MulSums(c);
    MulSums(d);
    Backwards(Xtime(a), Mul4(a), Mul8(a));
    Inner(Xtime(b), Mul8(b), b);
    Inner(Mul4(c), Mul8(c), c);
    AddAssoc(MulE(a), Add(MulB(b), MulD(c)), Mul9(d));
    AddAssoc(MulE(a), MulB(b), MulD(c));
  }

  lemma Backwards(a: bv8, b: bv8, c: bv8)
    ensures Add(Add(a, b), c) == Add3(c, b, a)
  {
    hide Add;
    AddComm(a, b);
    AddComm(Add(b, a), c);
    AddAssoc(c, b, a);
  }

  lemma Inner(a: bv8, b: bv8, c: bv8)
    ensures Add(a, Add(b, c)) == Add3(b, a, c)
  {
    hide Add;
    AddAssoc(a, b, c);
    AddComm(a, b);
  }
}

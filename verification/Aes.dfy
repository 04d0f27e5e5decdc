/** AES: the key schedule, encryption and decryption of one block, for all three key sizes. */
module Aes {
  import opened AesBytes
  import opened AesField
  import opened AesCipher

  // The cipher of section 5.1 and the equivalent inverse cipher of section 5.3.5

  /** The words of round `r`. */
  function KeyAt(w: seq<bv32>, r: nat): Block
    requires 4 * r + 3 < |w|
  {
    Block(w[4 * r], w[4 * r + 1], w[4 * r + 2], w[4 * r + 3])
  }

  function Rounds(w: seq<bv32>, s: Block, n: nat): Block
    requires 4 * n + 3 < |w|
  {
    if n == 0 then s else AddRoundKey(MixColumns(ShiftRows(SubBytes(Rounds(w, s, n - 1)))), KeyAt(w, n))
  }

  function Cipher(w: seq<bv32>, nr: nat, s: Block): Block
    requires nr > 0 && |w| == 4 * (nr + 1)
  {
    AddRoundKey(ShiftRows(SubBytes(Rounds(w, AddRoundKey(s, KeyAt(w, 0)), nr - 1))), KeyAt(w, nr))
  }

  function InvRounds(dw: seq<bv32>, s: Block, n: nat): Block
    requires 4 * n + 3 < |dw|
  {
    if n == 0 then s
    else AddRoundKey(InvMixColumns(InvSubBytes(InvShiftRows(InvRounds(dw, s, n - 1)))), KeyAt(dw, n))
  }

  function EqInvCipher(dw: seq<bv32>, nr: nat, s: Block): Block
    requires nr > 0 && |dw| == 4 * (nr + 1)
  {
    AddRoundKey(InvSubBytes(InvShiftRows(InvRounds(dw, AddRoundKey(s, KeyAt(dw, 0)), nr - 1))), KeyAt(dw, nr))
  }

  /** The keys for decryption: the rounds backwards, the inner ones mixed back. */
  ghost predicate Inverted(w: seq<bv32>, dw: seq<bv32>, nr: nat) {
    && |w| == |dw| == 4 * (nr + 1)
    && KeyAt(dw, 0) == KeyAt(w, nr) && KeyAt(dw, nr) == KeyAt(w, 0)
    && forall r :: 0 < r < nr ==> KeyAt(dw, r) == InvMixColumns(KeyAt(w, nr - r))
  }

  /** After n inverse rounds, the state is the one n rounds before the end, substituted and shifted. */
  lemma {:induction false} RoundsBack(w: seq<bv32>, dw: seq<bv32>, nr: nat, s: Block, n: nat)
    requires 0 < nr && n < nr && Inverted(w, dw, nr)
    ensures InvRounds(dw, ShiftRows(SubBytes(Rounds(w, s, nr - 1))), n) == ShiftRows(SubBytes(Rounds(w, s, nr - 1 - n)))
  {
    hide ShiftRows, SubBytes, InvMixColumns, InvSubBytes, InvShiftRows, MixColumns, AddRoundKey, KeyAt, FRound, IRound;
    if n > 0 {
      RoundsBack(w, dw, nr, s, n - 1);
      var m := nr - 1 - n;
      var before := Rounds(w, s, m);
      var key := KeyAt(w, m + 1);
      FRoundIsRound(before, key);
      IRoundIsRound(ShiftRows(SubBytes(Rounds(w, s, m + 1))), KeyAt(dw, n));
      RoundBack(before, key);
      assert KeyAt(dw, n) == InvMixColumns(KeyAt(w, nr - n));
    }
  }

  /** Decryption undoes encryption, whatever the round keys. */
  lemma DecryptEncrypt(w: seq<bv32>, dw: seq<bv32>, nr: nat, s: Block)
    requires nr > 0 && Inverted(w, dw, nr)
    ensures EqInvCipher(dw, nr, Cipher(w, nr, s)) == s
  {
    hide ShiftRows, SubBytes, InvMixColumns, InvSubBytes, InvShiftRows, MixColumns, AddRoundKey, KeyAt, Rounds, InvRounds;
    var s0 := AddRoundKey(s, KeyAt(w, 0));
    var last := ShiftRows(SubBytes(Rounds(w, s0, nr - 1)));
    AddRoundKeyInverts(last, KeyAt(w, nr));
    RoundsBack(w, dw, nr, s0, nr - 1);
    NoRounds(w, s0);
    SubShiftInverts(s0);
    AddRoundKeyInverts(s, KeyAt(w, 0));
  }

  /** After m rounds, the state is the one m inverse rounds before the end, shifted and substituted back. */
  lemma {:induction false} RoundsForth(w: seq<bv32>, dw: seq<bv32>, nr: nat, s: Block, m: nat)
    requires 0 < nr && m < nr && Inverted(w, dw, nr)
    ensures Rounds(w, InvSubBytes(InvShiftRows(InvRounds(dw, s, nr - 1))), m) == InvSubBytes(InvShiftRows(InvRounds(dw, s, nr - 1 - m)))
  {
    hide ShiftRows, SubBytes, InvMixColumns, InvSubBytes, InvShiftRows, MixColumns, AddRoundKey, KeyAt;
    if m > 0 {
      RoundsForth(w, dw, nr, s, m - 1);
      var n := nr - m;
      ShiftSubInverts(InvRounds(dw, s, n));
      assert KeyAt(dw, n) == InvMixColumns(KeyAt(w, nr - n));
      MixColumnsInverts(InvSubBytes(InvShiftRows(InvRounds(dw, s, n - 1))), KeyAt(w, m));
    }
  }

  /** Encryption undoes decryption, whatever the round keys. */
  lemma EncryptDecrypt(w: seq<bv32>, dw: seq<bv32>, nr: nat, s: Block)
    requires nr > 0 && Inverted(w, dw, nr)
    ensures Cipher(w, nr, EqInvCipher(dw, nr, s)) == s
  {
    hide ShiftRows, SubBytes, InvMixColumns, InvSubBytes, InvShiftRows, MixColumns, AddRoundKey, KeyAt, Rounds, InvRounds;
    var s0 := AddRoundKey(s, KeyAt(dw, 0));
    var last := InvSubBytes(InvShiftRows(InvRounds(dw, s0, nr - 1)));
    AddRoundKeyInverts(last, KeyAt(dw, nr));
    RoundsForth(w, dw, nr, s0, nr - 1);
    NoInvRounds(dw, s0);
    ShiftSubInverts(s0);
    AddRoundKeyInverts(s, KeyAt(w, nr));
  }

  /** Every key is a bijection of blocks: each block is the encryption of exactly one, its decryption. */
  lemma OnePlaintext(w: seq<bv32>, dw: seq<bv32>, nr: nat, s: Block, c: Block)
    requires nr > 0 && Inverted(w, dw, nr)
    ensures Cipher(w, nr, s) == c <==> s == EqInvCipher(dw, nr, c)
  {
    hide Cipher, EqInvCipher, Inverted;
    DecryptEncrypt(w, dw, nr, s);
    EncryptDecrypt(w, dw, nr, c);
  }

  lemma NoInvRounds(dw: seq<bv32>, s: Block)
    requires |dw| > 3
    ensures InvRounds(dw, s, 0) == s
  {}

  lemma NoRounds(w: seq<bv32>, s: Block)
    requires |w| > 3
    ensures Rounds(w, s, 0) == s
  {}

  // The key expansion of section 5.2

  function RconByte(j: nat): bv8 {
    if j <= 1 then 1 else Xtime(RconByte(j - 1))
  }

  function Rcon(j: nat): bv32 { Word(RconByte(j), 0, 0, 0) }

  /** Word `i` of the key schedule for a key of `nk` words. */
  function KeyWord(key: seq<bv32>, i: nat): bv32
    requires |key| > 0
  {
    var nk := |key|;
    if i < nk then key[i]
    else
      var t := KeyWord(key, i - 1);
      Plus(KeyWord(key, i - nk),
           if i % nk == 0 then Plus(SubColumn(Ror8(t)), Rcon(i / nk))
           else if nk > 6 && i % nk == 4 then SubColumn(t) else t)
  }

  /** rco_tab */
  function RcoTab(i: nat): bv32 {
    if i == 0 then 1 else if i == 1 then 2 else if i == 2 then 4 else if i == 3 then 8 else if i == 4 then 16
    else if i == 5 then 32 else if i == 6 then 64 else if i == 7 then 128 else if i == 8 then 27 else 54
  }

  lemma RconBytes()
    ensures RconByte(1) == 1 && RconByte(2) == 2 && RconByte(3) == 4 && RconByte(4) == 8 && RconByte(5) == 16
    ensures RconByte(6) == 32 && RconByte(7) == 64 && RconByte(8) == 128 && RconByte(9) == 27 && RconByte(10) == 54
  {
    assert RconByte(2) == Xtime(RconByte(1));
    assert RconByte(3) == Xtime(RconByte(2));
    assert RconByte(4) == Xtime(RconByte(3));
    assert RconByte(5) == Xtime(RconByte(4));
    assert RconByte(6) == Xtime(RconByte(5));
    assert RconByte(7) == Xtime(RconByte(6));
    assert RconByte(8) == Xtime(RconByte(7));
    assert RconByte(9) == Xtime(RconByte(8));
    assert RconByte(10) == Xtime(RconByte(9));
  }

  /** The round constants in the table are the powers of {02}. */
  lemma RcoTabIsRcon(i: nat)
    requires i < 10
    ensures RcoTab(i) == Rcon(i + 1)
  {
    hide RconByte;
    RconBytes();
  }

  /** ls_box */
  function LsBox(x: bv32): bv32 { FlCol(x, x, x, x) }

  lemma LsBoxIsSubWord(x: bv32)
    ensures LsBox(x) == SubColumn(x)
  {
    hide FlCol, Sub, Word, B0, B1, B2, B3;
    FlColIsSub(x, x, x, x);
  }

  // The code

  function LoadWord(b: seq<bv8>, i: nat): bv32
    requires 4 * i + 3 < |b|
  {
    Word(b[4 * i], b[4 * i + 1], b[4 * i + 2], b[4 * i + 3])
  }

  function LoadWords(b: seq<bv8>): (w: seq<bv32>)
    requires |b| % 4 == 0
    ensures |w| == |b| / 4
  {
    seq(|b| / 4, i requires 0 <= i < |b| / 4 => LoadWord(b, i))
  }
}

/** The AES code: expanding a key, encrypting and decrypting a block. */
module AesCode {
  import opened AesBytes
  import opened AesField
  import opened AesCipher
  import opened Aes

  lemma PlusComm(x: bv32, y: bv32)
    ensures Plus(x, y) == Plus(y, x)
  {}

  /** One word of the key schedule from the one before. */
  lemma NextWord(key: seq<bv32>, i: nat, t: bv32)
    requires 0 < |key| <= i && t == KeyWord(key, i - 1)
    ensures var nk := |key|;
      KeyWord(key, i) == Plus(
        if i % nk == 0 then Plus(LsBox(Ror8(t)), Rcon(i / nk)) else if nk > 6 && i % nk == 4 then LsBox(t) else t,
        KeyWord(key, i - nk))
  {
    hide Plus, LsBox, SubColumn, Ror8, Rcon;
    var nk := |key|;
    LsBoxIsSubWord(t);
    LsBoxIsSubWord(Ror8(t));
    var u := if i % nk == 0 then Plus(LsBox(Ror8(t)), Rcon(i / nk)) else if nk > 6 && i % nk == 4 then LsBox(t) else t;
    PlusComm(u, KeyWord(key, i - nk));
  }

  class AesCtx {
    const keyEnc: array<bv32>
    const keyDec: array<bv32>
    var keyLength: nat

    constructor ()
      ensures fresh(keyEnc) && fresh(keyDec) && keyEnc.Length == keyDec.Length == 60 && keyEnc != keyDec
    {
      keyEnc, keyDec := new bv32[60], new bv32[60];
      keyLength := 0;
    }

    ghost predicate Scheduled(key: seq<bv32>, n: nat)
      requires |key| > 0
      reads keyEnc
    {
      n <= keyEnc.Length && forall j :: 0 <= j < n ==> keyEnc[j] == KeyWord(key, j)
    }

    /** A word goes into the schedule. */
    method Put(ghost key: seq<bv32>, k: nat, t: bv32)
      requires |key| > 0 && k < keyEnc.Length && Scheduled(key, k) && t == KeyWord(key, k)
      modifies keyEnc
      ensures Scheduled(key, k + 1)
    {
      hide KeyWord;
      keyEnc[k] := t;
    }

    /** The first word of a turn: rotated, substituted, and the round constant added. */
    method Head(ghost key: seq<bv32>, nk: nat, i: nat, k: nat, t0: bv32) returns (t: bv32)
      requires 0 < |key| == nk <= k < keyEnc.Length && Scheduled(key, k) && t0 == KeyWord(key, k - 1)
      requires k % nk == 0 && k / nk == i + 1 && i < 10
      modifies keyEnc
      ensures Scheduled(key, k + 1) && t == KeyWord(key, k)
    {
      hide KeyWord, Plus, LsBox, Ror8, RcoTab, Rcon;
      NextWord(key, k, t0);
      RcoTabIsRcon(i);
      t := Ror8(t0);
      t := Plus(LsBox(t), RcoTab(i));
      t := Plus(t, keyEnc[k - nk]);
      Put(key, k, t);
    }

    /** A word that only adds the one before. */
    method Next(ghost key: seq<bv32>, nk: nat, k: nat, t0: bv32) returns (t: bv32)
      requires 0 < |key| == nk <= k < keyEnc.Length && Scheduled(key, k) && t0 == KeyWord(key, k - 1)
      requires k % nk != 0 && (nk > 6 ==> k % nk != 4)
      modifies keyEnc
      ensures Scheduled(key, k + 1) && t == KeyWord(key, k)
    {
      hide KeyWord, Plus, LsBox, Ror8;
      NextWord(key, k, t0);
      t := Plus(t0, keyEnc[k - nk]);
      Put(key, k, t);
    }

    /** The word in the middle of a turn of eight. */
    method Middle(ghost key: seq<bv32>, k: nat, t0: bv32) returns (t: bv32)
      requires |key| == 8 <= k < keyEnc.Length && Scheduled(key, k) && t0 == KeyWord(key, k - 1) && k % 8 == 4
      modifies keyEnc
      ensures Scheduled(key, k + 1) && t == KeyWord(key, k)
    {
      hide KeyWord, Plus, LsBox, Ror8;
      NextWord(key, k, t0);
      PlusComm(LsBox(t0), keyEnc[k - 8]);
      t := Plus(keyEnc[k - 8], LsBox(t0));
      Put(key, k, t);
    }

    /** loop4 */
    method Loop4(ghost key: seq<bv32>, i: nat, t0: bv32) returns (t: bv32)
      requires |key| == 4 && i < 10 && keyEnc.Length == 60 && Scheduled(key, 4 * i + 4) && t0 == KeyWord(key, 4 * i + 3)
      modifies keyEnc
      ensures Scheduled(key, 4 * i + 8) && t == KeyWord(key, 4 * i + 7)
    {
      hide KeyWord, Scheduled;
      t := Head(key, 4, i, 4 * i + 4, t0);
      t := Next(key, 4, 4 * i + 5, t);
      t := Next(key, 4, 4 * i + 6, t);
      t := Next(key, 4, 4 * i + 7, t);
    }

    /** loop6 */
    method Loop6(ghost key: seq<bv32>, i: nat, t0: bv32) returns (t: bv32)
      requires |key| == 6 && i < 8 && keyEnc.Length == 60 && Scheduled(key, 6 * i + 6) && t0 == KeyWord(key, 6 * i + 5)
      modifies keyEnc
      ensures Scheduled(key, 6 * i + 12) && t == KeyWord(key, 6 * i + 11)
    {
      hide KeyWord, Scheduled;
      t := Head(key, 6, i, 6 * i + 6, t0);
      t := Next(key, 6, 6 * i + 7, t);
      t := Next(key, 6, 6 * i + 8, t);
      t := Next(key, 6, 6 * i + 9, t);
      t := Next(key, 6, 6 * i + 10, t);
      t := Next(key, 6, 6 * i + 11, t);
    }

    /** loop8tophalf */
    method Loop8TopHalf(ghost key: seq<bv32>, i: nat, t0: bv32) returns (t: bv32)
      requires |key| == 8 && i < 7 && keyEnc.Length == 60 && Scheduled(key, 8 * i + 8) && t0 == KeyWord(key, 8 * i + 7)
      modifies keyEnc
      ensures Scheduled(key, 8 * i + 12) && t == KeyWord(key, 8 * i + 11)
    {
      hide KeyWord, Scheduled;
      t := Head(key, 8, i, 8 * i + 8, t0);
      t := Next(key, 8, 8 * i + 9, t);
      t := Next(key, 8, 8 * i + 10, t);
      t := Next(key, 8, 8 * i + 11, t);
    }

    /** loop8 */
    method Loop8(ghost key: seq<bv32>, i: nat, t0: bv32) returns (t: bv32)
      requires |key| == 8 && i < 6 && keyEnc.Length == 60 && Scheduled(key, 8 * i + 8) && t0 == KeyWord(key, 8 * i + 7)
      modifies keyEnc
      ensures Scheduled(key, 8 * i + 16) && t == KeyWord(key, 8 * i + 15)
    {
      hide KeyWord, Scheduled;
      t := Loop8TopHalf(key, i, t0);
      t := Middle(key, 8 * i + 12, t);
      t := Next(key, 8, 8 * i + 13, t);
      t := Next(key, 8, 8 * i + 14, t);
      t := Next(key, 8, 8 * i + 15, t);
    }

    /** The words that come straight from the key. */
    method CopyKey(inKey: seq<bv8>, ghost key: seq<bv32>)
      requires |inKey| in {16, 24, 32} && key == LoadWords(inKey) && keyEnc.Length == 60
      modifies keyEnc
      ensures Scheduled(key, |key|)
    {
      hide LoadWord, KeyWord;
      ghost var n := |key|;
      KeyItself(key);
      Put(key, 0, LoadWord(inKey, 0));
      Put(key, 1, LoadWord(inKey, 1));
      Put(key, 2, LoadWord(inKey, 2));
      Put(key, 3, LoadWord(inKey, 3));
      if |inKey| > 16 {
        Put(key, 4, LoadWord(inKey, 4));
        Put(key, 5, LoadWord(inKey, 5));
      }
      if |inKey| > 24 {
        Put(key, 6, LoadWord(inKey, 6));
        Put(key, 7, LoadWord(inKey, 7));
      }
    }

    /** The expansion of the key, by its size. */
    method ExpandEnc(inKey: seq<bv8>)
      requires keyEnc.Length == 60 && |inKey| in {16, 24, 32}
      modifies keyEnc
      ensures Scheduled(LoadWords(inKey), |inKey| + 28)
    {
      hide KeyWord, LoadWords;
      ghost var key := LoadWords(inKey);
      CopyKey(inKey, key);
      if |inKey| == 16 {
        var t := keyEnc[3];
        var i := 0;
        while i < 10
          invariant 0 <= i <= 10 && Scheduled(key, 4 * i + 4) && t == KeyWord(key, 4 * i + 3)
        {
          t := Loop4(key, i, t);
          i := i + 1;
        }
      } else if |inKey| == 24 {
        var t := keyEnc[5];
        var i := 0;
        while i < 8
          invariant 0 <= i <= 8 && Scheduled(key, 6 * i + 6) && t == KeyWord(key, 6 * i + 5)
        {
          t := Loop6(key, i, t);
          i := i + 1;
        }
      } else {
        var t := keyEnc[7];
        var i := 0;
        while i < 6
          invariant 0 <= i <= 6 && Scheduled(key, 8 * i + 8) && t == KeyWord(key, 8 * i + 7)
        {
          t := Loop8(key, i, t);
          i := i + 1;
        }
        t := Loop8TopHalf(key, i, t);
      }
    }

    /** The inner rounds of the keys for decryption: imix_col, and the rounds backwards. */
    method InnerKeys(len: nat)
      requires len in {16, 24, 32} && keyEnc.Length == keyDec.Length == 60 && keyEnc != keyDec
      modifies keyDec
      ensures forall i :: 4 <= i < len + 24 ==> keyDec[Mirror(len, i)] == InvMixColumn(keyEnc[i])
      ensures forall k :: (0 <= k < 4 || len + 24 <= k < len + 28) ==> keyDec[k] == old(keyDec[k])
    {
      hide InvMixColumn, ImixCol, Mirror;
      MirrorInside(len);
      var i := 4;
      while i < len + 24
        invariant 4 <= i <= len + 24
        invariant forall k :: 4 <= k < i ==> keyDec[Mirror(len, k)] == InvMixColumn(keyEnc[k])
        invariant forall k :: (0 <= k < 4 || len + 24 <= k < len + 28) ==> keyDec[k] == old(keyDec[k])
        modifies keyDec
      {
        ImixColIsInvMix(keyEnc[i]);
        keyDec[Mirror(len, i)] := ImixCol(keyEnc[i]);
        i := i + 1;
      }
    }

    /** The outer rounds of the keys for decryption. */
    method OuterKeys(len: nat)
      requires len in {16, 24, 32} && keyEnc.Length == keyDec.Length == 60 && keyEnc != keyDec
      modifies keyDec
      ensures keyDec[len + 24] == keyEnc[0] && keyDec[len + 25] == keyEnc[1]
      ensures keyDec[len + 26] == keyEnc[2] && keyDec[len + 27] == keyEnc[3]
      ensures keyDec[0] == keyEnc[len + 24] && keyDec[1] == keyEnc[len + 25]
      ensures keyDec[2] == keyEnc[len + 26] && keyDec[3] == keyEnc[len + 27]
    {
      keyDec[len + 24], keyDec[len + 25], keyDec[len + 26], keyDec[len + 27] := keyEnc[0], keyEnc[1], keyEnc[2], keyEnc[3];
      keyDec[0], keyDec[1], keyDec[2], keyDec[3] := keyEnc[len + 24], keyEnc[len + 25], keyEnc[len + 26], keyEnc[len + 27];
    }

    /** The keys for decryption. */
    method ExpandDec(len: nat)
      requires len in {16, 24, 32} && keyEnc.Length == keyDec.Length == 60 && keyEnc != keyDec
      modifies keyDec
      ensures Inverted(keyEnc[..len + 28], keyDec[..len + 28], len / 4 + 6)
    {
      hide InvMixColumn, Mirror, Inverted;
      OuterKeys(len);
      InnerKeys(len);
      MirrorInside(len);
      DecKeys(keyEnc[..len + 28], keyDec[..len + 28], len);
    }

    /** The context holds the schedule of `inKey`. */
    ghost predicate Ready(inKey: seq<bv8>)
      reads this, keyEnc, keyDec
    {
      && keyEnc.Length == keyDec.Length == 60 && keyEnc != keyDec
      && keyLength == |inKey| && keyLength in {16, 24, 32}
      && keyEnc[..keyLength + 28] == Schedule(inKey)
      && Inverted(keyEnc[..keyLength + 28], keyDec[..keyLength + 28], keyLength / 4 + 6)
    }

    /** crypto_aes_expand_key */
    method ExpandKey(inKey: seq<bv8>) returns (ok: bool)
      requires keyEnc.Length == keyDec.Length == 60 && keyEnc != keyDec
      modifies this, keyEnc, keyDec
      ensures ok <==> |inKey| in {16, 24, 32}
      ensures ok ==> Ready(inKey)
      ensures !ok ==> keyLength == old(keyLength) && keyEnc[..] == old(keyEnc[..]) && keyDec[..] == old(keyDec[..])
    {
      hide KeyWord, LoadWords, Inverted;
      if |inKey| != 16 && |inKey| != 24 && |inKey| != 32 {
        return false;
      }
      keyLength := |inKey|;
      ExpandEnc(inKey);
      ExpandDec(keyLength);
      ok := true;
    }

    /** f_nround twice, from one buffer to the other and back. */
    method TwoRounds(b: Block, kp: nat, ghost w: seq<bv32>, ghost s: Block, ghost n: nat) returns (b0: Block)
      requires kp + 8 <= |w| <= keyEnc.Length && kp == 4 * (n + 1) && w == keyEnc[..|w|]
      requires b == Rounds(w, s, n)
      ensures b0 == Rounds(w, s, n + 2)
    {
      hide FRound, Rounds;
      var b1 := FRound(b, Block(keyEnc[kp], keyEnc[kp + 1], keyEnc[kp + 2], keyEnc[kp + 3]));
      RoundStep(w, s, n);
      b0 := FRound(b1, Block(keyEnc[kp + 4], keyEnc[kp + 5], keyEnc[kp + 6], keyEnc[kp + 7]));
      RoundStep(w, s, n + 1);
    }

    /** The rounds of aes_encrypt before the last. */
    method MiddleRounds(b0: Block, ghost w: seq<bv32>) returns (b: Block, kp: nat)
      requires keyLength in {16, 24, 32} && |w| == keyLength + 28 <= keyEnc.Length && w == keyEnc[..|w|]
      ensures kp == keyLength + 24 && b == Rounds(w, b0, keyLength / 4 + 5)
    {
      hide Rounds, FRound;
      b, kp := b0, 4;
      NoRounds(w, b0);
      if keyLength > 24 {
        b := TwoRounds(b, kp, w, b0, 0);
        kp := kp + 8;
      }
      if keyLength > 16 {
        b := TwoRounds(b, kp, w, b0, kp / 4 - 1);
        kp := kp + 8;
      }
      ghost var n := kp / 4 - 1;
      b := TwoRounds(b, kp, w, b0, n);
      b := TwoRounds(b, kp + 8, w, b0, n + 2);
      b := TwoRounds(b, kp + 16, w, b0, n + 4);
      b := TwoRounds(b, kp + 24, w, b0, n + 6);
      kp := kp + 32;
      b := FRound(b, Block(keyEnc[kp], keyEnc[kp + 1], keyEnc[kp + 2], keyEnc[kp + 3]));
      RoundStep(w, b0, n + 8);
      kp := kp + 4;
    }

    /** aes_encrypt */
    method Encrypt(input: seq<bv8>, ghost inKey: seq<bv8>) returns (output: seq<bv8>)
      requires Ready(inKey) && |input| == 16
      ensures output == Store(Cipher(Schedule(inKey), |inKey| / 4 + 6, Load(input)))
    {
      hide Rounds, FLast, Inverted, Schedule, AddRoundKey, ShiftRows, SubBytes, Load, Store;
      ghost var w := keyEnc[..keyLength + 28];
      var b0 := AddRoundKey(Load(input), Block(keyEnc[0], keyEnc[1], keyEnc[2], keyEnc[3]));
      var b, kp := MiddleRounds(b0, w);
      var k := Block(keyEnc[kp], keyEnc[kp + 1], keyEnc[kp + 2], keyEnc[kp + 3]);
      FLastIsRound(b, k);
      output := Store(FLast(b, k));
    }

    /** i_nround twice. */
    method TwoInvRounds(b: Block, kp: nat, ghost dw: seq<bv32>, ghost s: Block, ghost n: nat) returns (b0: Block)
      requires kp + 8 <= |dw| <= keyDec.Length && kp == 4 * (n + 1) && dw == keyDec[..|dw|]
      requires b == InvRounds(dw, s, n)
      ensures b0 == InvRounds(dw, s, n + 2)
    {
      hide IRound, InvRounds;
      var b1 := IRound(b, Block(keyDec[kp], keyDec[kp + 1], keyDec[kp + 2], keyDec[kp + 3]));
      InvRoundStep(dw, s, n);
      b0 := IRound(b1, Block(keyDec[kp + 4], keyDec[kp + 5], keyDec[kp + 6], keyDec[kp + 7]));
      InvRoundStep(dw, s, n + 1);
    }

    /** The rounds of aes_decrypt before the last. */
    method MiddleInvRounds(b0: Block, ghost dw: seq<bv32>) returns (b: Block, kp: nat)
      requires keyLength in {16, 24, 32} && |dw| == keyLength + 28 <= keyDec.Length && dw == keyDec[..|dw|]
      ensures kp == keyLength + 24 && b == InvRounds(dw, b0, keyLength / 4 + 5)
    {
      hide InvRounds, IRound;
      b, kp := b0, 4;
      NoInvRounds(dw, b0);
      if keyLength > 24 {
        b := TwoInvRounds(b, kp, dw, b0, 0);
        kp := kp + 8;
      }
      if keyLength > 16 {
        b := TwoInvRounds(b, kp, dw, b0, kp / 4 - 1);
        kp := kp + 8;
      }
      ghost var n := kp / 4 - 1;
      b := TwoInvRounds(b, kp, dw, b0, n);
      b := TwoInvRounds(b, kp + 8, dw, b0, n + 2);
      b := TwoInvRounds(b, kp + 16, dw, b0, n + 4);
      b := TwoInvRounds(b, kp + 24, dw, b0, n + 6);
      kp := kp + 32;
      b := IRound(b, Block(keyDec[kp], keyDec[kp + 1], keyDec[kp + 2], keyDec[kp + 3]));
      InvRoundStep(dw, b0, n + 8);
      kp := kp + 4;
    }

    /** aes_decrypt */
    method Decrypt(input: seq<bv8>, ghost inKey: seq<bv8>) returns (output: seq<bv8>)
      requires Ready(inKey) && |input| == 16
      ensures output == Store(EqInvCipher(keyDec[..keyLength + 28], |inKey| / 4 + 6, Load(input)))
    {
      hide InvRounds, ILast, Inverted, Schedule, AddRoundKey, InvShiftRows, InvSubBytes, Load, Store;
      ghost var dw := keyDec[..keyLength + 28];
      var b0 := AddRoundKey(Load(input), Block(keyDec[0], keyDec[1], keyDec[2], keyDec[3]));
      var b, kp := MiddleInvRounds(b0, dw);
      var k := Block(keyDec[kp], keyDec[kp + 1], keyDec[kp + 2], keyDec[kp + 3]);
      ILastIsRound(b, k);
      output := Store(ILast(b, k));
    }

    /** Encrypting and decrypting with the same key gives the block back. */
    method RoundTrip(input: seq<bv8>, ghost inKey: seq<bv8>) returns (output: seq<bv8>)
      requires Ready(inKey) && |input| == 16
      ensures output == input
    {
      hide Inverted, Schedule, Cipher, EqInvCipher, Load, Store;
      var c := Encrypt(input, inKey);
      ghost var w, dw, nr := keyEnc[..keyLength + 28], keyDec[..keyLength + 28], |inKey| / 4 + 6;
      StoreLength(Cipher(w, nr, Load(input)));
      output := Decrypt(c, inKey);
      LoadStore(Cipher(w, nr, Load(input)));
      DecryptEncrypt(w, dw, nr, Load(input));
      StoreLoad(input);
    }

    /** Decrypting and encrypting with the same key gives the block back. */
    method RoundTripBack(input: seq<bv8>, ghost inKey: seq<bv8>) returns (output: seq<bv8>)
      requires Ready(inKey) && |input| == 16
      ensures output == input
    {
      hide Inverted, Schedule, Cipher, EqInvCipher, Load, Store;
      var p := Decrypt(input, inKey);
      ghost var w, dw, nr := keyEnc[..keyLength + 28], keyDec[..keyLength + 28], |inKey| / 4 + 6;
      StoreLength(EqInvCipher(dw, nr, Load(input)));
      output := Encrypt(p, inKey);
      LoadStore(EqInvCipher(dw, nr, Load(input)));
      EncryptDecrypt(w, dw, nr, Load(input));
      StoreLoad(input);
    }
  }

  function Load(b: seq<bv8>): Block
    requires |b| == 16
  {
    Block(LoadWord(b, 0), LoadWord(b, 1), LoadWord(b, 2), LoadWord(b, 3))
  }

  function StoreWord(x: bv32): seq<bv8> { [B0(x), B1(x), B2(x), B3(x)] }

  function Store(b: Block): seq<bv8> {
    StoreWord(b.c0) + StoreWord(b.c1) + StoreWord(b.c2) + StoreWord(b.c3)
  }

  lemma StoreLength(b: Block)
    ensures |Store(b)| == 16
  {}

  lemma LoadStore(b: Block)
    ensures |Store(b)| == 16 && Load(Store(b)) == b
  {
    hide B0, B1, B2, B3, Word;
    BytesWord(b.c0);
    BytesWord(b.c1);
    BytesWord(b.c2);
    BytesWord(b.c3);
  }

  lemma StoreLoad(s: seq<bv8>)
    requires |s| == 16
    ensures Store(Load(s)) == s
  {
    hide B0, B1, B2, B3, Word;
    WordBytes(s[0], s[1], s[2], s[3]);
    WordBytes(s[4], s[5], s[6], s[7]);
    WordBytes(s[8], s[9], s[10], s[11]);
    WordBytes(s[12], s[13], s[14], s[15]);
  }

  /** The expanded key. */
  function Schedule(inKey: seq<bv8>): seq<bv32>
    requires |inKey| in {16, 24, 32}
  {
    seq(|inKey| + 28, i requires 0 <= i => KeyWord(LoadWords(inKey), i))
  }

  lemma RoundStep(w: seq<bv32>, s: Block, n: nat)
    requires 4 * (n + 1) + 3 < |w|
    ensures FRound(Rounds(w, s, n), KeyAt(w, n + 1)) == Rounds(w, s, n + 1)
  {
    hide FRound, AddRoundKey, MixColumns, ShiftRows, SubBytes;
    FRoundIsRound(Rounds(w, s, n), KeyAt(w, n + 1));
  }

  lemma InvRoundStep(dw: seq<bv32>, s: Block, n: nat)
    requires 4 * (n + 1) + 3 < |dw|
    ensures IRound(InvRounds(dw, s, n), KeyAt(dw, n + 1)) == InvRounds(dw, s, n + 1)
  {
    hide IRound, AddRoundKey, InvMixColumns, InvShiftRows, InvSubBytes;
    IRoundIsRound(InvRounds(dw, s, n), KeyAt(dw, n + 1));
  }

  lemma KeyItself(key: seq<bv32>)
    requires |key| > 0
    ensures forall i :: 0 <= i < |key| ==> KeyWord(key, i) == key[i]
  {}

  /** The inner rounds are in place. */
  ghost predicate Inner(w: seq<bv32>, dw: seq<bv32>, len: nat)
    requires len % 8 == 0 && |w| == |dw| == len + 28
  {
    forall i :: 4 <= i < len + 24 ==> Mirror(len, i) < |dw| && dw[Mirror(len, i)] == InvMixColumn(w[i])
  }

  lemma InnerRound(w: seq<bv32>, dw: seq<bv32>, len: nat, r: nat)
    requires len in {16, 24, 32} && |w| == |dw| == len + 28 && Inner(w, dw, len) && 0 < r < len / 4 + 6
    ensures KeyAt(dw, r) == InvMixColumns(KeyAt(w, len / 4 + 6 - r))
  {
    hide InvMixColumn, Mirror;
    var m := 4 * (len / 4 + 6 - r);
    MirrorAt(len, r, 0);
    MirrorAt(len, r, 1);
    MirrorAt(len, r, 2);
    MirrorAt(len, r, 3);
    assert dw[Mirror(len, m)] == InvMixColumn(w[m]) && dw[Mirror(len, m + 1)] == InvMixColumn(w[m + 1]);
    assert dw[Mirror(len, m + 2)] == InvMixColumn(w[m + 2]) && dw[Mirror(len, m + 3)] == InvMixColumn(w[m + 3]);
  }

  lemma MirrorAt(len: nat, r: nat, c: nat)
    requires len in {16, 24, 32} && 0 < r < len / 4 + 6 && c < 4
    ensures Mirror(len, 4 * (len / 4 + 6 - r) + c) == 4 * r + c
  {
    hide Mirror;
    MirrorIs(len, len / 4 + 6 - r, c);
  }

  /** Word `c` of round `q`. */
  lemma MirrorIs(len: nat, q: nat, c: nat)
    requires len in {16, 24, 32} && 4 * q + c < len + 28 && c < 4
    ensures Mirror(len, 4 * q + c) == len + 24 - 4 * q + c
  {
    assert (4 * q + c) % 4 == c;
  }

  lemma DecKeys(w: seq<bv32>, dw: seq<bv32>, len: nat)
    requires len in {16, 24, 32} && |w| == |dw| == len + 28 && Inner(w, dw, len)
    requires dw[0] == w[len + 24] && dw[1] == w[len + 25] && dw[2] == w[len + 26] && dw[3] == w[len + 27]
    requires dw[len + 24] == w[0] && dw[len + 25] == w[1] && dw[len + 26] == w[2] && dw[len + 27] == w[3]
    ensures Inverted(w, dw, len / 4 + 6)
  {
    hide InvMixColumns, Inner, Mirror;
    var nr := len / 4 + 6;
    forall r | 0 < r < nr
      ensures KeyAt(dw, r) == InvMixColumns(KeyAt(w, nr - r))
    {
      InnerRound(w, dw, len, r);
    }
  }

  lemma MirrorInside(len: nat)
    requires len in {16, 24, 32}
    ensures forall i :: 4 <= i < len + 24 ==> 4 <= Mirror(len, i) < len + 24
    ensures forall i, k :: 4 <= i < len + 24 && 4 <= k < len + 24 && i != k ==> Mirror(len, i) != Mirror(len, k)
  {
    hide Mirror;
    forall i | 4 <= i < len + 24
      ensures 4 <= Mirror(len, i) < len + 24
    {
      MirrorTwice(len, i);
    }
    forall i, k | 4 <= i < len + 24 && 4 <= k < len + 24 && i != k
      ensures Mirror(len, i) != Mirror(len, k)
    {
      MirrorTwice(len, i);
      MirrorTwice(len, k);
    }
  }

  /** The inner words stay inside, and counting backwards twice is counting forwards. */
  lemma MirrorTwice(len: nat, i: nat)
    requires len in {16, 24, 32} && 4 <= i < len + 24
    ensures 4 <= Mirror(len, i) < len + 24 && Mirror(len, Mirror(len, i)) == i
  {
    hide Mirror;
    var q, c := i / 4, i % 4;
    MirrorIs(len, q, c);
    if len == 16 {
      MirrorIs(len, 10 - q, c);
    } else if len == 24 {
      MirrorIs(len, 12 - q, c);
    } else {
      MirrorIs(len, 14 - q, c);
    }
  }

  /** The place of word `i` when the rounds are counted backwards. */
  function Mirror(len: nat, i: nat): nat
    requires i < len + 28 && len % 8 == 0
  {
    len + 24 - (i - i % 4) + i % 4
  }
}

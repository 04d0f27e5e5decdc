/** Request sizes and bin indices of the boundary-tag heap, in bytes.

    `sz` is sizeof(size_t); the source is written for 4 and for 8.  Machine words are
    unbounded integers here, so every wrap-around of the source is written out.
 */
module HeapSizes {

  type Width = sz: int | sz == 4 || sz == 8 witness 4

  const NBINS := 96
  const NSMALLBINS := 32
  const MIN_LARGE_SIZE := 256
  const TWO32 := 0x1_0000_0000

  function Alignment(sz: Width): int { 2 * sz }

  function MinSize(sz: Width): int { 4 * sz }

  function SizeMax(sz: Width): int { if sz == 4 then TWO32 else TWO32 * TWO32 }

  predicate RequestOutOfRange(sz: Width, req: nat) {
    req >= SizeMax(sz) - 2 * MinSize(sz)
  }

  function RoundDown(x: int, unit: int): int
    requires unit > 0
  {
    x / unit * unit
  }

  /** Pads a request to a chunk size: room for the head word, rounded up to the alignment. */
  function RequestToSize(sz: Width, req: nat): (nb: nat)
    ensures nb % Alignment(sz) == 0 && MinSize(sz) <= nb
    ensures req + sz <= nb
    ensures nb == MinSize(sz) || nb < req + sz + Alignment(sz)
  {
    var mask := Alignment(sz) - 1;
    if req + sz + mask < MinSize(sz) then MinSize(sz)
    else if sz == 4 then RoundDown(req + sz + mask, 8) else RoundDown(req + sz + mask, 16)
  }

  /** The size the retry in the system allocator asks for pads back to the same chunk size. */
  lemma RetrySizeIsStable(sz: Width, nb: nat)
    requires nb % Alignment(sz) == 0 && MinSize(sz) <= nb
    ensures nb - (Alignment(sz) - 1) > 0
    ensures RequestToSize(sz, nb - (Alignment(sz) - 1)) == nb
  {
  }

  // ---------- bin indices ----------

  predicate InSmallbinRange(b: nat) { b < MIN_LARGE_SIZE }

  /** x << n on 32-bit words. */
  function Shl(x: nat, n: nat): nat
    decreases n
  {
    if n == 0 then x else Shl(2 * x % TWO32, n - 1)
  }

  /** x >> n. */
  function Shr(x: nat, n: nat): nat
    decreases n
  {
    if n == 0 then x else Shr(x / 2, n - 1)
  }

  /** Bitwise x & ~y. */
  function AndNot(x: nat, y: nat): nat {
    if x == 0 then 0
    else (if x % 2 == 1 && y % 2 == 0 then 1 else 0) + 2 * AndNot(x / 2, y / 2)
  }

  /** (x - t) >> 16, the difference taken modulo 2^32. */
  function Borrow(x: nat, t: nat): nat {
    (x - t) % TWO32 / 0x10000
  }

  /** The highest set bit of x as the fallback code computes it: a branch-free count of
      leading zeros, in 32-bit unsigned arithmetic throughout. */
  function HighBitFallback(x: nat): nat {
    var n8 := Borrow(x, 0x100) / 8 % 2 * 8;
    var x8 := Shl(x, n8);
    var n4 := Borrow(x8, 0x1000) / 4 % 2 * 4;
    var x4 := Shl(x8, n4);
    var n2 := Borrow(x4, 0x4000) / 2 % 2 * 2;
    var x2 := Shl(x4, n2) / 0x4000;
    (13 - (n8 + n4 + n2) + AndNot(x2, x2 / 2)) % TWO32
  }

  /** The floor of the binary logarithm. */
  function Log2(x: nat): nat
    requires x > 0
  {
    if x == 1 then 0 else 1 + Log2(x / 2)
  }

  lemma {:induction false} Log2Below(x: nat, k: nat)
    requires x > 0 && Shr(x, k) == 0
    ensures Log2(x) < k
  {
    if x > 1 { Log2Below(x / 2, k - 1); }
  }

  lemma {:induction false} Log2Monotone(x: nat, y: nat)
    requires 0 < x <= y
    ensures Log2(x) <= Log2(y)
  {
    if x > 1 { Log2Monotone(x / 2, y / 2); }
  }

  /** Log2 names the highest set bit: shifting it out leaves exactly 1. */
  lemma {:induction false} Log2IsHighestBit(x: nat)
    requires x > 0
    ensures Shr(x, Log2(x)) == 1
  {
    if x > 1 { Log2IsHighestBit(x / 2); }
  }

  lemma {:induction false} ShlCompose(x: nat, j: nat, k: nat)
    ensures Shl(Shl(x, j), k) == Shl(x, j + k)
    decreases j
  {
    if j > 0 { ShlCompose(2 * x % TWO32, j - 1, k); }
  }

  lemma ShlByZero(x: nat)
    ensures Shl(x, 0) == x
  {
  }

  lemma Log2Quadruple(x: nat)
    requires x > 0
    ensures Log2(4 * x) == Log2(x) + 2
  {
    assert Log2(4 * x) == 1 + Log2(2 * x);
  }

  /** A left shift that loses no bit moves the highest bit up by the shift. */
  lemma ShlByTwo(x: nat)
    requires 0 < x < 0x1000_0000
    ensures Shl(x, 2) == 4 * x && Log2(4 * x) == Log2(x) + 2
  {
    assert 2 * x % TWO32 == 2 * x && 4 * x % TWO32 == 4 * x;
    Log2Quadruple(x);
  }

  lemma ShlByFour(x: nat)
    requires 0 < x < 0x100_0000
    ensures Shl(x, 4) == 16 * x && Log2(16 * x) == Log2(x) + 4
  {
    ShlByTwo(x);
    ShlByTwo(4 * x);
    ShlCompose(x, 2, 2);
  }

  lemma ShlByEight(x: nat)
    requires 0 < x < 0x1_0000
    ensures Shl(x, 8) == 256 * x && Log2(256 * x) == Log2(x) + 8
  {
    ShlByFour(x);
    ShlByFour(16 * x);
    ShlCompose(x, 4, 4);
  }

  lemma BorrowDecides(x: nat, t: nat)
    requires x < 0x10000 && t < 0x10000
    ensures Borrow(x, t) == if x < t then 0xffff else 0
  {
    if x < t {
      assert (x - t) % TWO32 == x - t + TWO32;
    }
  }

  /** The three shifts of the fallback, with the borrows resolved. */
  function Normalized(x: nat): (nat, nat)
    requires 0 < x < 0x10000
  {
    var (n8, x8) := if x < 0x100 then (8, 256 * x) else (0, x);
    var (n4, x4) := if x8 < 0x1000 then (n8 + 4, 16 * x8) else (n8, x8);
    if x4 < 0x4000 then (n4 + 2, 4 * x4) else (n4, x4)
  }

  lemma NormalizedKeepsLog2(x: nat)
    requires 0 < x < 0x10000
    ensures var (n, y) := Normalized(x); n <= 14 && 0x4000 <= y < 0x10000 && Log2(y) == Log2(x) + n
  {
    var x8 := if x < 0x100 then 256 * x else x;
    var x4 := if x8 < 0x1000 then 16 * x8 else x8;
    ShlByEight(x);
    ShlByFour(x8);
    ShlByTwo(x4);
  }

  lemma FallbackIsNormalized(x: nat)
    requires 0 < x < 0x10000
    ensures var (n, y) := Normalized(x);
            HighBitFallback(x) == (13 - n + AndNot(y / 0x4000, y / 0x4000 / 2)) % TWO32
  {
    hide Borrow, Shl, AndNot, Log2;
    ShlByZero(x);
    BorrowDecides(x, 0x100);
    ShlByEight(x);
    var x8 := if x < 0x100 then 256 * x else x;
    BorrowDecides(x8, 0x1000);
    ShlByFour(x8);
    ShlByZero(x8);
    var x4 := if x8 < 0x1000 then 16 * x8 else x8;
    BorrowDecides(x4, 0x4000);
    ShlByTwo(x4);
    ShlByZero(x4);
  }

  /** The branch-free fallback finds the highest set bit of every nonzero 16-bit value. */
  lemma HighBitIsLog2(x: nat)
    requires 0 < x < 0x10000
    ensures HighBitFallback(x) == Log2(x)
  {
    hide HighBitFallback, Normalized, Log2, AndNot;
    FallbackIsNormalized(x);
    NormalizedKeepsLog2(x);
    TopBits(Normalized(x).1);
    Log2Below16(x);
  }

  lemma TopBits(x: nat)
    requires 0x4000 <= x < 0x10000
    ensures Log2(x) == 13 + AndNot(x / 0x4000, x / 0x4000 / 2)
  {
    Log2Drop7(x);
    Log2Drop7(x / 128);
    assert x / 128 / 128 == x / 0x4000;
    assert Log2(1) == 0 && Log2(2) == 1 && Log2(3) == 1;
    assert AndNot(1, 0) == 1 && AndNot(2, 1) == 2 && AndNot(3, 1) == 2;
  }

  lemma Log2Drop7(x: nat)
    requires x >= 128
    ensures Log2(x) == 7 + Log2(x / 128)
  {
    Log2Drop(x, 7);
    ShrCompose(x, 4, 3);
    assert Shr(x, 4) == x / 16 by { assert x / 2 / 2 / 2 / 2 == x / 16; }
    assert Shr(x / 16, 3) == x / 16 / 2 / 2 / 2 == x / 128;
  }

  lemma {:induction false} Log2Drop(x: nat, k: nat)
    requires Shr(x, k) > 0
    ensures x > 0 && Log2(x) == k + Log2(Shr(x, k))
    decreases k
  {
    if k > 0 { Log2Drop(x / 2, k - 1); }
  }

  // ---------- the bin table ----------

  /** __malloc_largebin_index.  The argument is an unsigned int, so a 64-bit size is truncated. */
  function LargebinIndex(size: nat): nat {
    var b := size % TWO32;
    var x := b / 256;
    if x >= 0x10000 then NBINS - 1
    else
      var m := HighBitFallback(x);
      (NSMALLBINS + m * 4 + Shr(b, (m + 6) % TWO32) % 4) % TWO32
  }

  function BinIndex(size: nat): nat {
    if InSmallbinRange(size) then size / 8 else LargebinIndex(size)
  }

  /** What the table means for large sizes: the power of two, then the quarter within it. */
  function QuarterIndex(b: nat): int
    requires b >= 256
  {
    var m := Log2(b / 256);
    NSMALLBINS + 4 * m + Shr(b, m + 6) - 4
  }

  lemma {:induction false} ShrCompose(x: nat, j: nat, k: nat)
    ensures Shr(Shr(x, j), k) == Shr(x, j + k)
  {
    if j > 0 { ShrCompose(x / 2, j - 1, k); }
  }

  lemma {:induction false} ShrMonotone(a: nat, b: nat, k: nat)
    requires a <= b
    ensures Shr(a, k) <= Shr(b, k)
    decreases k
  {
    if k > 0 { ShrMonotone(a / 2, b / 2, k - 1); }
  }

  lemma ShrByEight(b: nat)
    ensures Shr(b, 8) == b / 256
  {
    assert Shr(b, 8) == Shr(b / 2, 7) == Shr(b / 4, 6) == Shr(b / 8, 5) == Shr(b / 16, 4);
    assert Shr(b / 16, 4) == Shr(b / 32, 3) == Shr(b / 64, 2) == Shr(b / 128, 1) == Shr(b / 256, 0);
  }

  lemma QuarterRange(b: nat)
    requires b >= 256
    ensures 4 <= Shr(b, Log2(b / 256) + 6) <= 7
  {
    var m := Log2(b / 256);
    var y := Shr(b, m + 6);
    ShrCompose(b, m + 6, 2);
    ShrCompose(b, 8, m);
    ShrByEight(b);
    Log2IsHighestBit(b / 256);
    assert Shr(y, 2) == Shr(y / 2, 1) == Shr(y / 4, 0);
  }

  lemma Log2Below16(x: nat)
    requires 0 < x < 0x10000
    ensures Log2(x) < 16
  {
    ShrCompose(x, 8, 8);
    ShrByEight(x);
    ShrByEight(x / 256);
    Log2Below(x, 16);
  }

  lemma LargebinIsQuarter(b: nat)
    requires 256 <= b < TWO32
    ensures LargebinIndex(b) == if b / 256 >= 0x10000 then NBINS - 1 else QuarterIndex(b)
  {
    hide HighBitFallback, Log2, Shr;
    if b / 256 < 0x10000 {
      HighBitIsLog2(b / 256);
      Log2Below16(b / 256);
      QuarterRange(b);
    }
  }

  /** The least size of large bin `i`: the bins start at 256, 320, 384 and 448, and so on for each power of two. */
  function BinStart(i: nat): nat {
    if i < 4 then 64 * (4 + i) else 2 * BinStart(i - 4)
  }

  lemma {:induction false} QuarterHolds(b: nat, m: nat, q: nat)
    requires q < 4 && Shr(b, m + 6) == 4 + q
    ensures BinStart(4 * m + q) <= b < BinStart(4 * m + q + 1)
    decreases m
  {
    if m == 0 {
      assert Shr(b, 6) == Shr(b / 2, 5) == Shr(b / 4, 4) == Shr(b / 8, 3) == Shr(b / 16, 2) == Shr(b / 32, 1) == Shr(b / 64, 0);
    } else {
      QuarterHolds(b / 2, m - 1, q);
    }
  }

  /** A large size below 2^24 is in the bin whose sizes start at or below it while those of the next start above it;
      from 2^24 on it is in the last bin. */
  lemma BinHolds(b: nat)
    requires MIN_LARGE_SIZE <= b < TWO32
    ensures b >= 0x100_0000 ==> BinIndex(b) == NBINS - 1
    ensures b < 0x100_0000 ==>
      var i := BinIndex(b) - NSMALLBINS; 0 <= i < NBINS - NSMALLBINS && BinStart(i) <= b < BinStart(i + 1)
  {
    hide Shr, Log2, LargebinIndex, BinStart;
    LargebinIsQuarter(b);
    if b < 0x100_0000 {
      var m := Log2(b / 256);
      QuarterRange(b);
      Log2Below16(b / 256);
      QuarterHolds(b, m, Shr(b, m + 6) - 4);
    }
  }

  lemma QuarterMonotone(a: nat, b: nat)
    requires 256 <= a <= b
    ensures QuarterIndex(a) <= QuarterIndex(b)
  {
    Log2Monotone(a / 256, b / 256);
    QuarterRange(a);
    QuarterRange(b);
    ShrMonotone(a, b, Log2(a / 256) + 6);
  }

  /** Every chunk size has a bin between 2 and NBINS-1, large sizes only from bin 32 on. */
  lemma BinIndexRange(b: nat)
    requires 16 <= b < TWO32
    ensures 2 <= BinIndex(b) < NBINS
    ensures b >= MIN_LARGE_SIZE <==> BinIndex(b) >= NSMALLBINS
  {
    hide LargebinIndex, Log2, Shr;
    if b >= 256 {
      LargebinIsQuarter(b);
      QuarterRange(b);
      if b / 256 < 0x10000 { Log2Below16(b / 256); }
    }
  }

  /** Larger sizes never go to an earlier bin; hence a chunk in a later bin is larger. */
  lemma BinIndexMonotone(a: nat, b: nat)
    requires 16 <= a <= b < TWO32
    ensures BinIndex(a) <= BinIndex(b)
  {
    BinIndexRange(a);
    BinIndexRange(b);
    if a >= 256 {
      LargebinIsQuarter(a);
      LargebinIsQuarter(b);
      if b / 256 < 0x10000 { QuarterMonotone(a, b); }
    }
  }

  /** A search from the bin after that of `b` meets only larger chunks. */
  predicate SearchFits(b: nat) { b < TWO32 || BinIndex(b) == NBINS - 1 }

  /** The assertion of the search holds of every chunk below 4 GiB in a later bin exactly if the
      request is below 4 GiB, or its truncated size leads to the last bin. */
  lemma LaterBinsFitIff(b: nat)
    requires 16 <= b
    ensures SearchFits(b) <==> forall s | 16 <= s < TWO32 && s % 16 == 0 && BinIndex(s) > BinIndex(b) :: b <= s
  {
    hide BinIndex;
    if SearchFits(b) {
      forall s | 16 <= s < TWO32 && s % 16 == 0 && BinIndex(s) > BinIndex(b)
        ensures b <= s
      {
        BinIndexRange(s);
        if s < b { BinIndexMonotone(s, b); }
      }
    } else {
      LastBelow4GiB();
      LargeIndexBelow(b);
      assert (TWO32 - 16) % 16 == 0;
    }
  }

  /** Aligned sizes below `limit` are binned in order. */
  ghost predicate OrderedBelow(limit: nat) {
    forall a, b | 16 <= a <= b < limit && a % 16 == 0 && b % 16 == 0 :: BinIndex(a) <= BinIndex(b)
  }

  lemma {:induction false} ShlOfZero(n: nat)
    ensures Shl(0, n) == 0
    decreases n
  {
    if n > 0 { ShlOfZero(n - 1); }
  }

  /** The fallback has no bit to find in 0, and wraps around. */
  lemma HighBitOfZero()
    ensures HighBitFallback(0) == TWO32 - 1
  {
    hide Borrow, Shl, AndNot;
    BorrowDecides(0, 0x100);
    BorrowDecides(0, 0x1000);
    BorrowDecides(0, 0x4000);
    ShlOfZero(8);
    ShlOfZero(4);
    ShlOfZero(2);
    NothingOf(0);
  }

  lemma NothingOf(y: nat)
    ensures AndNot(0, y) == 0
  {}

  /** A chunk of exactly 4 GiB has the bin of a small one. */
  lemma BinAt4GiB()
    ensures BinIndex(TWO32) == 28
  {
    hide HighBitFallback, Shr;
    HighBitOfZero();
    ShrOfZero(5);
    assert TWO32 % TWO32 == 0 && (TWO32 - 1 + 6) % TWO32 == 5;
    assert (NSMALLBINS + (TWO32 - 1) * 4) % TWO32 == 28;
  }

  lemma {:induction false} ShrOfZero(n: nat)
    ensures Shr(0, n) == 0
    decreases n
  {
    if n > 0 { ShrOfZero(n - 1); }
  }

  /** The order holds exactly up to 4 GiB. */
  lemma BinOrderIff(limit: nat)
    ensures OrderedBelow(limit) <==> limit <= TWO32
  {
    hide BinIndex;
    if limit <= TWO32 {
      forall a, b | 16 <= a <= b < limit && a % 16 == 0 && b % 16 == 0
        ensures BinIndex(a) <= BinIndex(b)
      {
        BinIndexMonotone(a, b);
      }
    } else {
      BinAt4GiB();
      LastBelow4GiB();
      assert (TWO32 - 16) % 16 == 0 && TWO32 % 16 == 0;
    }
  }

  lemma LastBelow4GiB()
    ensures BinIndex(TWO32 - 16) == NBINS - 1
  {
    hide HighBitFallback, Shr;
    assert (TWO32 - 16) % TWO32 == TWO32 - 16;
  }

  /** Even a truncated size has a bin. */
  lemma LargeIndexBelow(b: nat)
    requires TWO32 <= b
    ensures BinIndex(b) < NBINS
  {
    hide HighBitFallback, Shr;
    var t := b % TWO32;
    assert BinIndex(b) == LargebinIndex(b) == LargebinIndex(t) by { assert t % TWO32 == t; }
    if t >= 256 {
      LargebinIsQuarter(t);
      QuarterRange(t);
      if t / 256 < 0x10000 { Log2Below16(t / 256); }
    } else {
      HighBitOfZero();
      assert t / 256 == 0 && (TWO32 - 1 + 6) % TWO32 == 5;
      assert (NSMALLBINS + (TWO32 - 1) * 4 + Shr(t, 5) % 4) % TWO32 == 28 + Shr(t, 5) % 4;
    }
  }
}

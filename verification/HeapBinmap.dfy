/** The bin bitmap: one bit per bin in 32-bit words, with a trailing zero word.

    A word is a number below 2^32; the bit operations of the source are written on it.
 */
module HeapBinmap {
  import opened HeapSizes

  const BINMAPSIZE := 3

  function Pow2(k: nat): (p: nat)
    ensures p >= 1
  {
    if k == 0 then 1 else 2 * Pow2(k - 1)
  }

  /** A bit mask after `i` left shifts of 1U: the 33rd value is 0. */
  function Bit(i: nat): nat {
    if i < 32 then Pow2(i) else 0
  }

  /** (word & (1U << i)) != 0 */
  predicate GetBit(word: nat, i: nat)
    decreases i
  {
    if i == 0 then word % 2 == 1 else GetBit(word / 2, i - 1)
  }

  /** word | (1U << i) */
  function SetBit(word: nat, i: nat): nat
    decreases i
  {
    if i == 0 then word / 2 * 2 + 1 else 2 * SetBit(word / 2, i - 1) + word % 2
  }

  /** word & ~(1U << i) */
  function ClearBit(word: nat, i: nat): nat
    decreases i
  {
    if i == 0 then word / 2 * 2 else 2 * ClearBit(word / 2, i - 1) + word % 2
  }

  predicate Marked(binmap: seq<nat>, i: nat)
    requires i / 32 < |binmap|
  {
    GetBit(binmap[i / 32], i % 32)
  }

  function MarkBin(binmap: seq<nat>, i: nat): seq<nat>
    requires i / 32 < |binmap|
  {
    binmap[i / 32 := SetBit(binmap[i / 32], i % 32)]
  }

  function UnmarkBin(binmap: seq<nat>, i: nat): seq<nat>
    requires i / 32 < |binmap|
  {
    binmap[i / 32 := ClearBit(binmap[i / 32], i % 32)]
  }

  // ---------- single words ----------

  lemma {:induction false} SetBitSets(word: nat, i: nat, j: nat)
    ensures GetBit(SetBit(word, i), j) == (GetBit(word, j) || i == j)
    decreases i
  {
    if i == 0 {
      assert j > 0 ==> (word / 2 * 2 + 1) / 2 == word / 2;
    } else {
      assert (2 * SetBit(word / 2, i - 1) + word % 2) / 2 == SetBit(word / 2, i - 1);
      if j > 0 { SetBitSets(word / 2, i - 1, j - 1); }
    }
  }

  lemma {:induction false} ClearBitClears(word: nat, i: nat, j: nat)
    ensures GetBit(ClearBit(word, i), j) == (GetBit(word, j) && i != j)
    decreases i
  {
    if i == 0 {
      assert j > 0 ==> (word / 2 * 2) / 2 == word / 2;
    } else {
      assert (2 * ClearBit(word / 2, i - 1) + word % 2) / 2 == ClearBit(word / 2, i - 1);
      if j > 0 { ClearBitClears(word / 2, i - 1, j - 1); }
    }
  }

  lemma {:induction false} SetBitBound(word: nat, i: nat, n: nat)
    requires i < n && word < Pow2(n)
    ensures SetBit(word, i) < Pow2(n)
    decreases i
  {
    if i > 0 {
      SetBitBound(word / 2, i - 1, n - 1);
      assert SetBit(word, i) <= 2 * SetBit(word / 2, i - 1) + 1;
    }
  }

  lemma {:induction false} ClearBitBound(word: nat, i: nat)
    ensures ClearBit(word, i) <= word
    decreases i
  {
    if i > 0 { ClearBitBound(word / 2, i - 1); }
  }

  /** The test `bit > map` never skips a set bit at or above `bit`. */
  lemma {:induction false} SkipIsSafe(word: nat, i: nat, j: nat)
    requires i <= j && GetBit(word, j)
    ensures Pow2(i) <= word
    decreases j
  {
    if i > 0 {
      SkipIsSafe(word / 2, i - 1, j - 1);
    } else if j > 0 {
      SkipIsSafe(word / 2, 0, j - 1);
    }
  }

  /** When `bit <= map`, some bit at or above `bit` is set: the scan for it stays in the word. */
  lemma {:induction false} SomeBitAbove(word: nat, i: nat, n: nat) returns (j: nat)
    requires Pow2(i) <= word < Pow2(n)
    ensures i <= j < n && GetBit(word, j)
    decreases n
  {
    if i == 0 && word % 2 == 1 {
      j := 0;
    } else {
      j := SomeBitAbove(word / 2, if i == 0 then 0 else i - 1, n - 1);
      j := j + 1;
    }
  }

  // ---------- the map and the lists ----------

  /** A clear bit means an empty bin. */
  ghost predicate BinmapOk(binmap: seq<nat>, bins: seq<seq<int>>) {
    && |binmap| == BINMAPSIZE + 1 && |bins| == NBINS
    && binmap[BINMAPSIZE] == 0
    && (forall b | 0 <= b < |binmap| :: binmap[b] < Pow2(32))
    && forall i {:trigger bins[i]} | 2 <= i < NBINS && bins[i] != [] :: Marked(binmap, i)
  }

  lemma BinmapMark(binmap: seq<nat>, bins: seq<seq<int>>, bins': seq<seq<int>>, i: nat)
    requires BinmapOk(binmap, bins) && 2 <= i < NBINS && |bins'| == NBINS
    requires forall j | 2 <= j < NBINS && j != i && bins'[j] != [] :: bins[j] != []
    ensures BinmapOk(MarkBin(binmap, i), bins')
  {
    hide GetBit, SetBit, Pow2;
    SetBitBound(binmap[i / 32], i % 32, 32);
    forall j | 2 <= j < NBINS && bins'[j] != [] ensures Marked(MarkBin(binmap, i), j) {
      if j != i { assert bins[j] != [] && Marked(binmap, j); }
      if j / 32 == i / 32 { SetBitSets(binmap[j / 32], i % 32, j % 32); }
    }
  }

  lemma BinmapFewer(binmap: seq<nat>, bins: seq<seq<int>>, bins': seq<seq<int>>)
    requires BinmapOk(binmap, bins) && |bins'| == NBINS
    requires forall j | 2 <= j < NBINS && bins'[j] != [] :: bins[j] != []
    ensures BinmapOk(binmap, bins')
  {
    forall j | 2 <= j < NBINS && bins'[j] != [] ensures Marked(binmap, j) {
      assert bins[j] != [];
    }
  }

  /** Clearing the bit of an empty bin keeps the map right. */
  lemma BinmapClear(binmap: seq<nat>, bins: seq<seq<int>>, i: nat)
    requires BinmapOk(binmap, bins) && 2 <= i < NBINS && bins[i] == []
    ensures BinmapOk(UnmarkBin(binmap, i), bins)
  {
    hide GetBit, ClearBit, Pow2;
    ClearBitBound(binmap[i / 32], i % 32);
    forall j | 2 <= j < NBINS && bins[j] != [] ensures Marked(UnmarkBin(binmap, i), j) {
      assert Marked(binmap, j);
      if j / 32 == i / 32 { ClearBitClears(binmap[j / 32], i % 32, j % 32); }
    }
  }

  lemma EmptyBinmap(bins: seq<seq<int>>)
    requires |bins| == NBINS && forall i | 0 <= i < NBINS :: bins[i] == []
    ensures BinmapOk([0, 0, 0, 0], bins)
  {
    assert Pow2(32) >= 1;
  }

  lemma BinmapShape(binmap: seq<nat>, bins: seq<seq<int>>)
    requires BinmapOk(binmap, bins)
    ensures |binmap| == BINMAPSIZE + 1
  {
  }

  lemma {:induction false} ZeroHasNoBit(j: nat)
    ensures !GetBit(0, j)
  {
    if j > 0 { ZeroHasNoBit(j - 1); }
  }

  /** Skipping the rest of a word passes only empty bins. */
  lemma SkipWord(binmap: seq<nat>, bins: seq<seq<int>>, block: nat, pos: nat)
    requires BinmapOk(binmap, bins) && block < BINMAPSIZE && pos <= 32
    requires pos == 32 || Bit(pos) > binmap[block]
    ensures forall b {:trigger bins[b]} | 32 * block + pos <= b < 32 * block + 32 && 2 <= b < NBINS :: bins[b] == []
  {
    hide GetBit, Pow2;
    forall b {:trigger bins[b]} | 32 * block + pos <= b < 32 * block + 32 && 2 <= b < NBINS ensures bins[b] == [] {
      assert b / 32 == block && b % 32 >= pos;
      if bins[b] != [] {
        assert Marked(binmap, b);
        SkipIsSafe(binmap[block], pos, b % 32);
      }
    }
  }

  /** So does passing a clear bit. */
  lemma SkipBit(binmap: seq<nat>, bins: seq<seq<int>>, block: nat, pos: nat)
    requires BinmapOk(binmap, bins) && block < BINMAPSIZE && pos < 32 && !GetBit(binmap[block], pos)
    ensures 2 <= 32 * block + pos ==> bins[32 * block + pos] == []
  {
    var b := 32 * block + pos;
    assert b / 32 == block && b % 32 == pos;
  }

  /** A zero word passes 32 empty bins. */
  lemma SkipZero(binmap: seq<nat>, bins: seq<seq<int>>, block: nat)
    requires BinmapOk(binmap, bins) && block < BINMAPSIZE && binmap[block] == 0
    ensures forall b {:trigger bins[b]} | 32 * block <= b < 32 * block + 32 && 2 <= b < NBINS :: bins[b] == []
  {
    hide GetBit, Pow2;
    forall b {:trigger bins[b]} | 32 * block <= b < 32 * block + 32 && 2 <= b < NBINS ensures bins[b] == [] {
      assert b / 32 == block;
      ZeroHasNoBit(b % 32);
    }
  }

  lemma FirstBit(word: nat)
    requires word != 0
    ensures Bit(0) <= word
  {
  }
}

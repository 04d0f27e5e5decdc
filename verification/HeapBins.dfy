/** What the bins hold: each sorted bin the sizes of its index, large bins in size order. */
module HeapBins {
  import opened HeapTags
  import opened HeapSizes
  import opened HeapLists
  import opened HeapFast

  ghost predicate BinSizes(sz: Width, c: Chunks) {
    forall a | a in c && c[a].kind.Binned? && c[a].kind.bin >= 2 ::
      0 <= Bytes(sz, c[a].n) < TWO32 && BinIndex(Bytes(sz, c[a].n)) == c[a].kind.bin
  }

  ghost predicate Descending(c: Chunks, s: seq<int>) {
    && (forall k | 0 <= k < |s| :: s[k] in c)
    && (forall j, k | 0 <= j < k < |s| :: c[s[j]].n >= c[s[k]].n)
  }

  /** Large bins are kept in size order, largest first. */
  ghost predicate Sorted(c: Chunks, bins: seq<seq<int>>) {
    |bins| == NBINS && forall i {:trigger bins[i]} | NSMALLBINS <= i < NBINS :: Descending(c, bins[i])
  }

  /** Chunks in the sorted bins of `c'` are there, with the same size, in `c`. */
  ghost predicate FewerBinned(c: Chunks, c': Chunks) {
    forall a | a in c' && c'[a].kind.Binned? && c'[a].kind.bin >= 2 :: a in c && c[a] == c'[a]
  }

  lemma BinSizesFewer(sz: Width, c: Chunks, c': Chunks)
    requires BinSizes(sz, c) && FewerBinned(c, c')
    ensures BinSizes(sz, c')
  {
  }

  lemma SortedSame(c: Chunks, c': Chunks, bins: seq<seq<int>>)
    requires Sorted(c, bins) && Lists(c', bins) && FewerBinned(c, c')
    ensures Sorted(c', bins)
  {
    forall i | NSMALLBINS <= i < NBINS ensures Descending(c', bins[i]) {
      assert Descending(c, bins[i]);
      forall k | 0 <= k < |bins[i]| ensures bins[i][k] in c' && c'[bins[i][k]] == c[bins[i][k]] {
        assert OnList(c', bins, i, k);
        var a := bins[i][k];
        assert c'[a].kind.Binned? && c'[a].kind.bin >= 2;
      }
    }
  }

  lemma SortedWithout(c: Chunks, bins: seq<seq<int>>, i: int, k: int)
    requires Sorted(c, bins) && 1 <= i < NBINS && 0 <= k < |bins[i]|
    ensures Sorted(c, bins[i := Without(bins[i], k)])
  {
    if i >= NSMALLBINS { assert Descending(c, bins[i]); }
    var bins' := bins[i := Without(bins[i], k)];
    forall j | NSMALLBINS <= j < NBINS ensures Descending(c, bins'[j]) {
      assert Descending(c, bins[j]);
    }
  }

  /** No sorted bin becomes nonempty. */
  ghost predicate Fewer(bins: seq<seq<int>>, bins': seq<seq<int>>) {
    |bins| == |bins'| == NBINS && forall j {:trigger bins'[j]} | 2 <= j < NBINS && bins'[j] != [] :: bins[j] != []
  }

  lemma SortedUnsorted(c: Chunks, bins: seq<seq<int>>, bins': seq<seq<int>>)
    requires Sorted(c, bins) && |bins'| == NBINS && forall j | 2 <= j < NBINS :: bins'[j] == bins[j]
    ensures Sorted(c, bins')
  {
  }

  /** Position `k` keeps a list in size order for a chunk of `n` words. */
  ghost predicate FitsAt(c: Chunks, s: seq<int>, k: int, n: int) {
    && (forall j | 0 <= j < |s| :: s[j] in c)
    && (forall j | 0 <= j < |s| && j < k :: c[s[j]].n >= n)
    && (forall j | 0 <= j < |s| && j >= k :: c[s[j]].n <= n)
  }

  lemma SortedWith(c: Chunks, bins: seq<seq<int>>, i: int, k: int, p: int)
    requires Sorted(c, bins) && 1 <= i < NBINS && 0 <= k <= |bins[i]| && p in c
    requires i >= NSMALLBINS ==> FitsAt(c, bins[i], k, c[p].n)
    ensures Sorted(c, bins[i := With(bins[i], k, p)])
  {
    var bins' := bins[i := With(bins[i], k, p)];
    forall j | NSMALLBINS <= j < NBINS ensures Descending(c, bins'[j]) {
      assert Descending(c, bins[j]);
    }
  }

  // ---------- tag words and lists ----------

  /** Writing a tag word disturbs no list. */
  lemma TagWrite(mem: seq<int>, c: Chunks, base: int, top: int, bins: seq<seq<int>>, a: int, y: int, v: int)
    requires Tiling(c, base, top) && ARENA <= base && Rings(mem, bins) && Lists(c, bins)
    requires (a in c || a == top) && (y == a || y == a + 1) && 0 <= y < |mem|
    ensures Rings(mem[y := v], bins)
  {
    forall j | 1 <= j < NBINS ensures Ring(mem[y := v], BinAt(j), bins[j]) {
      forall k | 0 <= k < |bins[j]| ensures y != bins[j][k] + 2 && y != bins[j][k] + 3 {
        assert OnList(c, bins, j, k);
      }
      RingFrame(mem, mem[y := v], BinAt(j), bins[j]);
    }
  }

  /** Writing the head of any chunk, or word 0 behind a chunk that is not in use, leaves used chunks alone. */
  lemma HeadWriteInside(mem: seq<int>, c: Chunks, base: int, top: int, a: int, y: int, v: int, p: int)
    requires Tiling(c, base, top)
    requires (a in c || a == top) && (y == a + 1 || (y == a && forall b | b in c && b != p && !c[b].kind.Binned? :: b + c[b].n != a))
    requires 0 <= y < |mem|
    ensures SameInside(mem, mem[y := v], c, p)
  {
    forall b, x | b != p && Inside(c, b, x) && 0 <= x < |mem| ensures mem[y := v][x] == mem[x] {
    }
  }

  // ---------- the neighbourhood of a chunk being freed ----------

  /** The chunks of [q, e) held off their lists, everything else as in `c`. */
  ghost function Held(c: Chunks, q: int, e: int): (d: Chunks)
    ensures SameSizes(c, d)
  {
    map a | a in c :: if q <= a < e then Chunk(c[a].n, Live) else c[a]
  }

  lemma Where(c: Chunks, bins: seq<seq<int>>, a: int) returns (k: int)
    requires Lists(c, bins) && a in c && c[a].kind.Binned?
    ensures 1 <= c[a].kind.bin < NBINS && 0 <= k < |bins[c[a].kind.bin]| && bins[c[a].kind.bin][k] == a
  {
    k :| 0 <= k < |bins[c[a].kind.bin]| && bins[c[a].kind.bin][k] == a;
  }

  /** What word 0 and the PREV_INUSE bit of `p` say about the chunk before it is true. */
  lemma Before(mem: seq<int>, c: Chunks, base: int, top: int, p: int)
    requires Tiling(c, base, top) && Coalesced(c) && Tags(mem, c) && p in c
    ensures HeadOk(mem, c, p)
    ensures Pinuse(mem[p + 1]) ==> UsedBefore(c, p)
    ensures !Pinuse(mem[p + 1]) ==>
              var q := p - mem[p];
              q in c && c[q].kind.Binned? && c[q].n == mem[p] && Succ(c, q) == p && q < p && UsedBefore(c, q)
  {
    assert HeadOk(mem, c, p) && PrevOk(mem, c, p);
    if Pinuse(mem[p + 1]) {
      forall a | a in c && Succ(c, a) == p ensures !c[a].kind.Binned? { assert HeadOk(mem, c, a); }
    }
  }

  /** The PREV_INUSE bit two chunks on tells whether the chunk after `p` is free. */
  lemma After(mem: seq<int>, c: Chunks, base: int, top: int, p: int)
    requires Tiling(c, base, top) && Coalesced(c) && Tags(mem, c) && p in c && Succ(c, p) != top
    ensures var e := Succ(c, p);
            && e in c && HeadOk(mem, c, e) && Pinuse(mem[Succ(c, e) + 1]) == !c[e].kind.Binned?
            && (c[e].kind.Binned? ==> Succ(c, e) in c && !c[Succ(c, e)].kind.Binned?)
  {
    assert HeadOk(mem, c, Succ(c, p));
    if c[Succ(c, p)].kind.Binned? { assert Succ(c, Succ(c, p)) in c; }
  }

  lemma NextChunk(mem: seq<int>, c: Chunks, base: int, top: int, p: int)
    requires Tiling(c, base, top) && Tags(mem, c) && p in c
    ensures HeadOk(mem, c, p)
    ensures Succ(c, p) == top || (Succ(c, p) in c && HeadOk(mem, c, Succ(c, p)))
  {
    assert HeadOk(mem, c, p);
    if Succ(c, p) != top { assert HeadOk(mem, c, Succ(c, p)); }
  }

  lemma HeldOne(c: Chunks, base: int, top: int, p: int)
    requires Tiling(c, base, top) && p in c && c[p].kind == Live
    ensures Held(c, p, Succ(c, p)) == c
  {
    var d := Held(c, p, Succ(c, p));
    assert d.Keys == c.Keys;
    forall a | a in c ensures d[a] == c[a] { }
  }

  lemma HeldBack(c: Chunks, base: int, top: int, q: int, p: int, e: int)
    requires Tiling(c, base, top) && q in c && p in c && Succ(c, q) == p && p < e
    ensures Taken(Held(c, p, e), q) == Held(c, q, e)
  {
    var d := Taken(Held(c, p, e), q);
    assert d.Keys == Held(c, q, e).Keys;
    forall a | a in d ensures d[a] == Held(c, q, e)[a] { }
  }

  lemma HeldOn(c: Chunks, base: int, top: int, q: int, e: int)
    requires Tiling(c, base, top) && e in c && q < e
    ensures Taken(Held(c, q, e), e) == Held(c, q, Succ(c, e))
    ensures forall a | a in c && e <= a < Succ(c, e) :: a == e
  {
    var d := Taken(Held(c, q, e), e);
    assert d.Keys == Held(c, q, Succ(c, e)).Keys;
    forall a | a in d ensures d[a] == Held(c, q, Succ(c, e))[a] { }
  }

  /** SameInside seen from a map in which more chunks are held. */
  lemma SameInsideHeld(m0: seq<int>, m1: seq<int>, m2: seq<int>, c: Chunks, q: int, e: int)
    requires SameInside(m0, m1, c, -1) && SameInside(m1, m2, Held(c, q, e), -1)
    ensures SameInside(m0, m2, c, -1)
  {
    forall a, x | a != -1 && Inside(c, a, x) && 0 <= x < |m0| ensures m2[x] == m0[x] {
      assert Inside(Held(c, q, e), a, x);
    }
  }

  lemma SameTagsHeld(mem: seq<int>, mem': seq<int>, c: Chunks, top: int, q: int, e: int)
    requires SameTags(mem, mem', Held(c, q, e), top, {})
    ensures SameTags(mem, mem', c, top, {})
  {
    forall a | a in c || a == top ensures SameTag(mem, mem', a) {
      assert a in Held(c, q, e) || a == top;
    }
  }

  lemma SameInsideTrans(m0: seq<int>, m1: seq<int>, m2: seq<int>, c: Chunks, p: int)
    requires SameInside(m0, m1, c, p) && SameInside(m1, m2, c, p)
    ensures SameInside(m0, m2, c, p)
  {
  }

  /** The head of the chunk after the freed one, once its PREV_INUSE bit is cleared. */
  lemma ClearAfter(m0: seq<int>, m1: seq<int>, c: Chunks, base: int, top: int, q: int, p: int, next: int)
    requires Tiling(c, base, top) && Coalesced(c) && Tags(m0, c) && SameTags(m0, m1, c, top, {})
    requires q in c && p in c && q <= p && Succ(c, p) == next && next in c
    ensures HeadOk(m0, c, next) && HeadOk(m1, c, next)
    ensures SameTags(m0, m1[next + 1 := Head(c[next].n, false)], Cut(c, q, next), top, {next})
  {
    TagsFrame(m0, m1, c, base, top);
    assert HeadOk(m0, c, next) && HeadOk(m1, c, next);
    var m2 := m1[next + 1 := Head(c[next].n, false)];
    forall a | (a in Cut(c, q, next) || a == top) && a != next ensures SameTag(m0, m2, a) {
      assert SameTag(m0, m1, a);
    }
  }

  /** The same, when that chunk was free and is absorbed: the bit two chunks on was clear already. */
  lemma ClearAfterFree(m0: seq<int>, m1: seq<int>, m3: seq<int>, c: Chunks, base: int, top: int, q: int, p: int, next: int)
    requires Tiling(c, base, top) && Coalesced(c) && Tags(m0, c) && SameTags(m0, m1, c, top, {})
    requires q in c && p in c && q <= p && Succ(c, p) == next && next in c && c[next].kind.Binned?
    requires 0 <= next < |m1| - 1
    requires SameTags(m1[next + 1 := Head(c[next].n, false)], m3, c, top, {})
    ensures var e := Succ(c, next);
            && e in c && !c[e].kind.Binned? && 0 <= e < |m3| - 1 && m3[e + 1] == Head(c[e].n, false)
            && SameTags(m0, m3, Cut(c, q, e), top, {e})
  {
    var e := Succ(c, next);
    assert e in c && !c[e].kind.Binned?;
    var m2 := m1[next + 1 := Head(c[next].n, false)];
    assert HeadOk(m0, c, next) && HeadOk(m0, c, e);
    assert SameTag(m0, m1, e) && SameTag(m2, m3, e);
    forall a | (a in Cut(c, q, e) || a == top) && a != e ensures SameTag(m0, m3, a) {
      assert SameTag(m0, m1, a) && SameTag(m2, m3, a);
    }
  }

  // ---------- a coalesced chunk becomes free, or part of the top ----------

  ghost predicate Range(c: Chunks, p: int, q: int, e: int) {
    && p in c && !c[p].kind.Binned? && q in c && q <= p < e
    && (forall a | a in c && q <= a < e :: a == p || c[a].kind.Binned?)
  }

  /** A chunk in use, alone or with the free chunk before it. */
  lemma RangeFrom(c: Chunks, base: int, top: int, p: int)
    requires Tiling(c, base, top) && p in c && c[p].kind == Live
    ensures p < Succ(c, p) && Range(c, p, p, Succ(c, p))
    ensures forall q | q in c && c[q].kind.Binned? && Succ(c, q) == p :: Range(c, p, q, Succ(c, p))
  {}

  lemma RangeBounds(c: Chunks, base: int, top: int, p: int, q: int, e: int)
    requires Tiling(c, base, top) && ARENA <= base && Range(c, p, q, e)
    ensures Tiling(Held(c, q, e), base, top) && q in c && Held(c, q, e)[q].kind == Live
    ensures q % 2 == 0 && ARENA <= base <= q < e && q + MINWORDS <= top
    ensures e in c ==> e + MINWORDS <= top
  {
    TilingSameSizes(c, Held(c, q, e), base, top);
  }

  lemma FusedLists(c: Chunks, bins: seq<seq<int>>, p: int, q: int, e: int)
    requires Range(c, p, q, e) && Lists(Listed(Held(c, q, e), q, 1), bins)
    ensures Lists(Fused(c, q, e), bins)
    ensures FewerBinned(c, Fused(c, q, e)) && SameUsed(c, Fused(c, q, e), p)
  {
    ListsTransfer(Listed(Held(c, q, e), q, 1), Fused(c, q, e), bins);
  }

  lemma FusedTags(m0: seq<int>, m1: seq<int>, m2: seq<int>, c: Chunks, base: int, top: int, p: int, q: int, e: int)
    requires Tiling(c, base, top) && ARENA <= base && Coalesced(c) && Tags(m0, c)
    requires Range(c, p, q, e) && UsedBefore(c, q) && e in c && !c[e].kind.Binned? && top < |m0| - 1
    requires SameTags(m0, m1, Cut(c, q, e), top, {e}) && m1[e + 1] == Head(c[e].n, false)
    requires SameTags(m1, m2, c, top, {})
    ensures var m3 := m2[q + 1 := Head(e - q, true)][e := e - q];
            Tags(m3, Fused(c, q, e)) && SameTag(m0, m3, top)
  {
    var m3 := m2[q + 1 := Head(e - q, true)][e := e - q];
    assert SameTag(m1, m2, e);
    forall a | (a in Cut(c, q, e) || a == top) && a != e ensures SameTag(m0, m3, a) {
      assert SameTag(m0, m1, a) && SameTag(m1, m2, a);
    }
    TagsFused(m0, m3, c, base, top, q, e);
  }

  lemma FusedInside(m0: seq<int>, m1: seq<int>, m2: seq<int>, c: Chunks, base: int, top: int, p: int, q: int, e: int)
    requires Tiling(c, base, top) && ARENA <= base && Range(c, p, q, e) && e in c && top < |m0| - 1
    requires SameInside(m0, m1, c, -1) && SameInside(m1, m2, Held(c, q, e), q)
    ensures SameInside(m0, m2[q + 1 := Head(e - q, true)][e := e - q], c, p)
  {
    var m3 := m2[q + 1 := Head(e - q, true)][e := e - q];
    forall a, x | a != p && Inside(c, a, x) && 0 <= x < |m0| ensures m3[x] == m0[x] {
      assert a != q && !(q <= a < e);
      assert Inside(Held(c, q, e), a, x);
    }
  }

  lemma FusedRings(mem: seq<int>, c: Chunks, base: int, top: int, bins: seq<seq<int>>, q: int, e: int)
    requires Tiling(c, base, top) && ARENA <= base && top < |mem| - 1 && q in c && e in c && q < e
    requires Rings(mem, bins) && Lists(Listed(Held(c, q, e), q, 1), bins)
    ensures Rings(mem[q + 1 := Head(e - q, true)][e := e - q], bins)
  {
    hide Rings, Lists, Disjoint, Linked;
    var d := Listed(Held(c, q, e), q, 1);
    TilingSameSizes(c, d, base, top);
    TagWrite(mem, d, base, top, bins, q, q + 1, Head(e - q, true));
    TagWrite(mem[q + 1 := Head(e - q, true)], d, base, top, bins, e, e, e - q);
  }

  lemma CutLists(c: Chunks, bins: seq<seq<int>>, base: int, top: int, p: int, q: int)
    requires Tiling(c, base, top) && Range(c, p, q, top) && Lists(Held(c, q, top), bins)
    ensures Lists(Cut(c, q, top), bins)
    ensures FewerBinned(c, Cut(c, q, top)) && SameUsed(c, Cut(c, q, top), p)
  {
    ListsTransfer(Held(c, q, top), Cut(c, q, top), bins);
  }

  lemma CutMemory(m0: seq<int>, m1: seq<int>, c: Chunks, base: int, top: int, bins: seq<seq<int>>, p: int, q: int, n: int)
    requires Tiling(c, base, top) && ARENA <= base && Coalesced(c) && Tags(m0, c) && UsedBefore(c, q)
    requires Range(c, p, q, top) && top < |m0| - 1
    requires SameTags(m0, m1, c, top, {}) && SameInside(m0, m1, c, -1)
    requires Rings(m1, bins) && Lists(Held(c, q, top), bins)
    ensures ARENA <= q < top
    ensures var m2 := m1[q + 1 := Head(n, true)];
            && Tags(m2, Cut(c, q, top)) && SameInside(m0, m2, c, p) && Rings(m2, bins)
  {
    var m2 := m1[q + 1 := Head(n, true)];
    RangeBounds(c, base, top, p, q, top);
    forall a | (a in Cut(c, q, top) || a == q) && a != q ensures SameTag(m0, m2, a) {
      assert SameTag(m0, m1, a);
    }
    TagsCut(m0, m2, c, base, top, q, n);
    HeadWriteInside(m1, c, base, top, q, q + 1, Head(n, true), p);
    TagWrite(m1, Held(c, q, top), base, top, bins, q, q + 1, Head(n, true));
    SameInsideTrans(m0, m1, m2, c, p);
  }

  // ---------- what the program that uses the heap can see ----------

  /** From (mem, c) to (mem', c') the chunks in use by the program, apart from `p`, are the
      same chunks, at the same addresses, of the same sizes and with the same contents. */
  ghost predicate Kept(mem: seq<int>, c: Chunks, mem': seq<int>, c': Chunks, p: int) {
    && |mem'| == |mem|
    && (forall a | a in c && c[a].kind == Live && a != p :: a in c' && c'[a] == c[a])
    && (forall a | a in c' && c'[a].kind == Live && a != p :: a in c && c[a] == c'[a])
    && (forall a, x {:trigger Inside(c, a, x)} | Inside(c, a, x) && c[a].kind == Live && a != p && 0 <= x < |mem| :: mem'[x] == mem[x])
  }

  lemma KeptTrans(m0: seq<int>, c0: Chunks, m1: seq<int>, c1: Chunks, m2: seq<int>, c2: Chunks, p: int)
    requires Kept(m0, c0, m1, c1, p) && Kept(m1, c1, m2, c2, p)
    ensures Kept(m0, c0, m2, c2, p)
  {
    forall a, x | Inside(c0, a, x) && c0[a].kind == Live && a != p && 0 <= x < |m0| ensures m2[x] == m0[x] {
      assert Inside(c1, a, x);
    }
  }

  lemma KeptWeaken(m0: seq<int>, c0: Chunks, m1: seq<int>, c1: Chunks, p: int)
    requires Kept(m0, c0, m1, c1, -1) && (forall a | a in c0 :: 0 <= a) && (forall a | a in c1 :: 0 <= a)
    ensures Kept(m0, c0, m1, c1, p)
  {
  }

  lemma KeptSame(mem: seq<int>, c: Chunks, mem': seq<int>, c': Chunks, p: int)
    requires SameUsed(c, c', p) && SameInside(mem, mem', c, p)
    ensures Kept(mem, c, mem', c', p)
  {
  }

  /** Whether a used chunk is parked on a fast list matters to nothing else. */
  lemma CoreKind(sz: Width, mem: seq<int>, c: Chunks, base: int, top: int, bins: seq<seq<int>>, p: int, k: Kind)
    requires Tiling(c, base, top) && Coalesced(c) && Tags(mem, c) && Lists(c, bins) && BinSizes(sz, c) && Sorted(c, bins)
    requires p in c && !c[p].kind.Binned? && !k.Binned?
    ensures var c' := c[p := Chunk(c[p].n, k)];
            && Tiling(c', base, top) && Coalesced(c') && Tags(mem, c') && Lists(c', bins) && BinSizes(sz, c') && Sorted(c', bins)
  {
    var c' := c[p := Chunk(c[p].n, k)];
    TilingSameSizes(c, c', base, top);
    TagsSameFree(mem, c, c');
    ListsTransfer(c, c', bins);
    SortedSame(c, c', bins);
  }

  /** Coalescing a chunk that was parked on a fast list touches no chunk of the program. */
  lemma KeptParked(mem: seq<int>, c: Chunks, mem': seq<int>, c': Chunks, p: int)
    requires p in c && c[p].kind.Fast?
    requires SameUsed(Taken(c, p), c', p) && SameInside(mem, mem', Taken(c, p), p)
    ensures Kept(mem, c, mem', c', -1)
  {
    var d := Taken(c, p);
    forall a | a in c && c[a].kind == Live && a != -1 ensures a in c' && c'[a] == c[a] {
      assert a in d && !d[a].kind.Binned?;
    }
    forall a, x | Inside(c, a, x) && c[a].kind == Live && a != -1 && 0 <= x < |mem| ensures mem'[x] == mem[x] {
      assert Inside(d, a, x);
    }
  }

  lemma KeptLength(mem: seq<int>, c: Chunks, mem': seq<int>, c': Chunks, p: int)
    requires Kept(mem, c, mem', c', p)
    ensures |mem'| == |mem|
  {
  }

  lemma KeptRefl(mem: seq<int>, c: Chunks, p: int)
    ensures Kept(mem, c, mem, c, p)
  {
  }

  // ---------- empty lists ----------

  function NoLists(n: nat): (r: seq<seq<int>>)
    ensures |r| == n && forall i | 0 <= i < n :: r[i] == []
  {
    seq(n, i => [])
  }

  lemma EmptyBins(mem: seq<int>)
    requires |mem| >= ARENA && forall j | 1 <= j < NBINS :: mem[BinAt(j) + 2] == BinAt(j) && mem[BinAt(j) + 3] == BinAt(j)
    ensures Rings(mem, NoLists(NBINS))
  {
    forall j | 1 <= j < NBINS ensures Ring(mem, BinAt(j), NoLists(NBINS)[j]) {
      assert mem[BinAt(j) + 2] == BinAt(j);
    }
  }

  lemma EmptyFasts(sz: Width, mem: seq<int>, heads: seq<int>)
    requires |heads| == NFastbins(sz) && forall j | 0 <= j < |heads| :: heads[j] == 0
    ensures Chains(mem, heads, NoLists(NFastbins(sz))) && FastLists(map[], NoLists(NFastbins(sz)))
    ensures FastSizes(sz, map[], RequestToSize(sz, 64))
  {
  }

  lemma KeptEmpty(mem: seq<int>, mem': seq<int>)
    requires |mem'| == |mem|
    ensures Kept(mem, map[], mem', map[], -1)
  {
  }

  lemma LastFastbin(sz: Width, v: nat)
    requires MaxFast(v) == RequestToSize(sz, 64)
    ensures 0 <= FastbinIndex(v) < NFastbins(sz)
  {
    DefaultMaxFast(sz);
    FlagsDoNotMatter(0, v);
  }

  /** A nonzero head is the address of a chunk on that list. */
  lemma HeadIsFast(mem: seq<int>, c: Chunks, heads: seq<int>, fasts: seq<seq<int>>, j: nat)
    requires Chains(mem, heads, fasts) && FastLists(c, fasts) && j < |fasts|
    ensures heads[j] != 0 ==> heads[j] in c && c[heads[j]].kind.Fast?
    ensures fasts[j] != [] ==> heads[j] in c
  {
    assert Chain(mem, heads[j], fasts[j]);
    if fasts[j] != [] { assert OnFast(c, fasts, j, 0); }
  }

  lemma TilingPositive(c: Chunks, base: int, top: int)
    requires Tiling(c, base, top) && ARENA <= base
    ensures ARENA <= base <= top && forall a | a in c :: ARENA <= a < top
  {
  }

  /** Parking a used chunk on a fast list: one word inside it is overwritten. */
  lemma ParkMemory(mem: seq<int>, c: Chunks, base: int, top: int, bins: seq<seq<int>>, p: int, v: int)
    requires Tiling(c, base, top) && ARENA <= base && top < |mem| - 1 && Tags(mem, c) && Rings(mem, bins) && Lists(c, bins)
    requires p in c && !c[p].kind.Binned?
    ensures 0 <= p < |mem| - 3
    ensures var mem' := mem[p + 2 := v];
            Tags(mem', c) && Rings(mem', bins) && SameInside(mem, mem', c, p) && SameTags(mem, mem', c, top, {})
  {
    OwnLinks(mem, c, base, top, bins, p, v, mem[p + 3]);
    assert mem[p + 3 := mem[p + 3]] == mem;
    TagsFrame(mem, mem[p + 2 := v], c, base, top);
  }

  lemma KeptPark(mem: seq<int>, c: Chunks, mem': seq<int>, p: int, j: nat)
    requires p in c && c[p].kind == Live && SameInside(mem, mem', c, p)
    ensures Kept(mem, c, mem', Parked(c, p, j), p)
  {
  }

  /** Chunk sizes in bytes: aligned, at least the minimum, and below the size of memory. */
  lemma ChunkBytes(sz: Width, c: Chunks, base: int, top: int, limit: int, p: int)
    requires Tiling(c, base, top) && ARENA <= base && top <= limit && p in c
    ensures MINWORDS <= c[p].n && c[p].n % 2 == 0 && 0 <= p
    ensures Bytes(sz, c[p].n) % 8 == 0 && MinSize(sz) <= Bytes(sz, c[p].n) < Bytes(sz, limit)
  {
    BytesAligned(sz, c[p].n);
  }

  lemma FastSizesPark(sz: Width, c: Chunks, p: int, maxFast: int)
    requires FastSizes(sz, c, maxFast) && p in c && 16 <= Bytes(sz, c[p].n) <= maxFast
    ensures FastSizes(sz, Parked(c, p, FastbinIndex(Bytes(sz, c[p].n))), maxFast)
  {
  }

  // ---------- the top ----------

  lemma TopWrite(sz: Width, mem: seq<int>, c: Chunks, base: int, top: int, bins: seq<seq<int>>,
                 heads: seq<int>, fasts: seq<seq<int>>, limit: int, n0: int, n: int)
    requires Tiling(c, base, top) && ARENA <= base && Tags(mem, c) && TopOk(mem, top, n0) && Rings(mem, bins) && Lists(c, bins)
    requires Chains(mem, heads, fasts) && FastLists(c, fasts) && FastSizes(sz, c, limit)
    ensures var mem' := mem[top + 1 := Head(n, true)];
            && Tags(mem', c) && Rings(mem', bins) && Chains(mem', heads, fasts)
            && Kept(mem, c, mem', c, -1) && SameInside(mem, mem', c, -1)
  {
    var mem' := mem[top + 1 := Head(n, true)];
    TagWrite(mem, c, base, top, bins, top, top + 1, Head(n, true));
    HeadWriteInside(mem, c, base, top, top, top + 1, Head(n, true), -1);
    TopTags(mem, c, base, top, n0, n);
    FastKept(sz, mem, mem', c, c, base, top, heads, fasts, limit, -1);
  }

  lemma TopTags(mem: seq<int>, c: Chunks, base: int, top: int, n0: int, n: int)
    requires Tiling(c, base, top) && ARENA <= base && Tags(mem, c) && TopOk(mem, top, n0)
    ensures Tags(mem[top + 1 := Head(n, true)], c)
  {
    hide HeadOk, PrevOk;
    var mem' := mem[top + 1 := Head(n, true)];
    forall a | a in c ensures HeadOk(mem', c, a) && PrevOk(mem', c, a) { TopTag(mem, c, base, top, n0, n, a); }
  }

  lemma TopTag(mem: seq<int>, c: Chunks, base: int, top: int, n0: int, n: int, a: int)
    requires Tiling(c, base, top) && ARENA <= base && Tags(mem, c) && TopOk(mem, top, n0) && a in c
    ensures HeadOk(mem[top + 1 := Head(n, true)], c, a) && PrevOk(mem[top + 1 := Head(n, true)], c, a)
  {
    hide Disjoint;
    assert HeadOk(mem, c, a) && PrevOk(mem, c, a);
    assert Succ(c, a) == top || Succ(c, a) in c;
  }

  // ---------- taking free chunks ----------

  lemma TakenMemory(m0: seq<int>, m1: seq<int>, c: Chunks, base: int, top: int, bins: seq<seq<int>>, v: int)
    requires Tiling(c, base, top) && ARENA <= base && Coalesced(c) && Tags(m0, c) && top < |m0| - 1
    requires v in c && c[v].kind.Binned?
    requires SameTags(m0, m1, c, top, {}) && SameInside(m0, m1, c, -1) && Rings(m1, bins) && Lists(Taken(c, v), bins)
    ensures HeadOk(m0, c, v) && HeadOk(m1, c, v) && SameTag(m0, m1, top) && Succ(c, v) != top
    ensures var m2 := m1[Succ(c, v) + 1 := SetPinuse(m1[Succ(c, v) + 1])];
            Tags(m2, Taken(c, v)) && SameInside(m0, m2, c, -1) && Rings(m2, bins) && SameTag(m0, m2, top)
  {
    hide Rings, Lists, SameInside;
    var e := Succ(c, v);
    assert e in c && HeadOk(m0, c, v);
    assert SameTag(m0, m1, v) && SameTag(m0, m1, e) && SameTag(m0, m1, top);
    var m2 := m1[e + 1 := SetPinuse(m1[e + 1])];
    forall a | (a in c || a == top) && a != e ensures SameTag(m0, m2, a) {
      assert SameTag(m0, m1, a);
    }
    TagsTaken(m0, m2, c, base, top, v);
    TilingSameSizes(c, Taken(c, v), base, top);
    TagWrite(m1, Taken(c, v), base, top, bins, e, e + 1, SetPinuse(m1[e + 1]));
    HeadWriteInside(m1, c, base, top, e, e + 1, SetPinuse(m1[e + 1]), -1);
    SameInsideTrans(m0, m1, m2, c, -1);
  }

  lemma TakenAbstract(sz: Width, c: Chunks, base: int, top: int, bins: seq<seq<int>>, v: int)
    requires Tiling(c, base, top) && Coalesced(c) && v in c && c[v].kind.Binned?
    requires BinSizes(sz, c) && Sorted(c, bins) && Lists(Taken(c, v), bins)
    ensures Tiling(Taken(c, v), base, top) && Coalesced(Taken(c, v)) && BinSizes(sz, Taken(c, v)) && Sorted(Taken(c, v), bins)
  {
    TilingSameSizes(c, Taken(c, v), base, top);
    CoalescedTaken(c, v);
    SortedSame(c, Taken(c, v), bins);
  }

  /** A free chunk cut in two, both halves off the lists. */
  ghost function Halved(c: Chunks, v: int, nb: int): Chunks
    requires v in c
  {
    c[v := Chunk(nb, Live)][v + nb := Chunk(c[v].n - nb, Live)]
  }

  lemma HalvedLists(c: Chunks, base: int, top: int, bins: seq<seq<int>>, v: int, nb: int)
    requires Tiling(c, base, top) && v in c && Lists(Taken(c, v), bins)
    requires nb % 2 == 0 && MINWORDS <= nb && nb + MINWORDS <= c[v].n
    ensures Tiling(Halved(c, v, nb), base, top) && Lists(Halved(c, v, nb), bins)
  {
    TilingSplit(c, base, top, v, nb);
    TilingSameSizes(Split(c, v, nb), Halved(c, v, nb), base, top);
    assert v + nb !in c;
    ListsTransfer(Taken(c, v), Halved(c, v, nb), bins);
  }

  lemma HalvedListed(c: Chunks, base: int, top: int, v: int, nb: int)
    requires v in c
    ensures v + nb in Halved(c, v, nb) && Listed(Halved(c, v, nb), v + nb, 1) == Split(c, v, nb)
  {
  }

  lemma SplitTags(m0: seq<int>, m1: seq<int>, m2: seq<int>, c: Chunks, base: int, top: int, v: int, nb: int)
    requires Tiling(c, base, top) && ARENA <= base && Coalesced(c) && Tags(m0, c) && top < |m0| - 1
    requires v in c && c[v].kind.Binned? && nb % 2 == 0 && MINWORDS <= nb && nb + MINWORDS <= c[v].n
    requires SameTags(m0, m1, c, top, {}) && SameTags(m1, m2, Halved(c, v, nb), top, {})
    ensures ARENA <= v && Succ(c, v) < top
    ensures var m3 := m2[v + 1 := Head(nb, true)][v + nb + 1 := Head(c[v].n - nb, true)][Succ(c, v) := c[v].n - nb];
            Tags(m3, Split(c, v, nb)) && SameTag(m0, m3, top)
  {
    var e := Succ(c, v);
    assert e in c && HeadOk(m0, c, v);
    var m3 := m2[v + 1 := Head(nb, true)][v + nb + 1 := Head(c[v].n - nb, true)][e := c[v].n - nb];
    forall a | (a in c || a == top) && a != v && a != e ensures SameTag(m0, m3, a) {
      assert a in Halved(c, v, nb) || a == top;
      assert SameTag(m0, m1, a) && SameTag(m1, m2, a);
    }
    assert SameTag(m0, m1, e) && SameTag(m1, m2, e);
    TagsSplit(m0, m3, c, base, top, v, nb);
  }

  lemma SplitMemory(m0: seq<int>, m1: seq<int>, m2: seq<int>, c: Chunks, base: int, top: int, bins: seq<seq<int>>, v: int, nb: int)
    requires Tiling(c, base, top) && ARENA <= base && Coalesced(c) && Tags(m0, c) && top < |m0| - 1
    requires v in c && c[v].kind.Binned? && nb % 2 == 0 && MINWORDS <= nb && nb + MINWORDS <= c[v].n
    requires SameTags(m0, m1, c, top, {}) && SameTags(m1, m2, Halved(c, v, nb), top, {})
    requires SameInside(m0, m1, c, -1) && SameInside(m1, m2, Halved(c, v, nb), v + nb)
    requires Rings(m2, bins) && Lists(Split(c, v, nb), bins)
    ensures ARENA <= v && Succ(c, v) < top
    ensures var m3 := m2[v + 1 := Head(nb, true)][v + nb + 1 := Head(c[v].n - nb, true)][Succ(c, v) := c[v].n - nb];
            && Tags(m3, Split(c, v, nb)) && SameTag(m0, m3, top) && Rings(m3, bins) && SameInside(m0, m3, c, -1)
  {
    hide Rings, Lists, SameTags, Tags, Disjoint, Linked;
    SplitTags(m0, m1, m2, c, base, top, v, nb);
    SplitInside(m0, m1, m2, c, base, top, v, nb);
    var c', e := Split(c, v, nb), Succ(c, v);
    TilingSplit(c, base, top, v, nb);
    SuccListed(c, base, top, v, nb);
    TagWrite(m2, c', base, top, bins, v, v + 1, Head(nb, true));
    var m3 := m2[v + 1 := Head(nb, true)];
    TagWrite(m3, c', base, top, bins, v + nb, v + nb + 1, Head(c[v].n - nb, true));
    TagWrite(m3[v + nb + 1 := Head(c[v].n - nb, true)], c', base, top, bins, e, e, c[v].n - nb);
  }

  lemma SuccListed(c: Chunks, base: int, top: int, v: int, nb: int)
    requires Tiling(c, base, top) && Coalesced(c) && v in c && c[v].kind.Binned?
    ensures Succ(c, v) in Split(c, v, nb)
  {
    assert Succ(c, v) in c;
  }

  lemma SplitInside(m0: seq<int>, m1: seq<int>, m2: seq<int>, c: Chunks, base: int, top: int, v: int, nb: int)
    requires Tiling(c, base, top) && ARENA <= base && Coalesced(c) && top < |m0| - 1
    requires v in c && c[v].kind.Binned? && nb % 2 == 0 && MINWORDS <= nb && nb + MINWORDS <= c[v].n
    requires SameInside(m0, m1, c, -1) && SameInside(m1, m2, Halved(c, v, nb), v + nb)
    ensures ARENA <= v && Succ(c, v) < top
    ensures SameInside(m0, m2[v + 1 := Head(nb, true)][v + nb + 1 := Head(c[v].n - nb, true)][Succ(c, v) := c[v].n - nb], c, -1)
  {
    assert Succ(c, v) in c;
    var m3 := m2[v + 1 := Head(nb, true)][v + nb + 1 := Head(c[v].n - nb, true)][Succ(c, v) := c[v].n - nb];
    forall a, x | a != -1 && Inside(c, a, x) && 0 <= x < |m0| ensures m3[x] == m0[x] {
      assert a != v && a != v + nb;
      assert Inside(Halved(c, v, nb), a, x);
    }
  }

  lemma SplitAbstract(sz: Width, c: Chunks, base: int, top: int, bins: seq<seq<int>>, bins': seq<seq<int>>, v: int, nb: int)
    requires Tiling(c, base, top) && Coalesced(c) && v in c && c[v].kind.Binned?
    requires nb % 2 == 0 && MINWORDS <= nb && nb + MINWORDS <= c[v].n
    requires BinSizes(sz, c) && Sorted(c, bins) && |bins'| == NBINS && (forall j | 2 <= j < NBINS :: bins'[j] == bins[j])
    requires Lists(Split(c, v, nb), bins')
    ensures Tiling(Split(c, v, nb), base, top) && Coalesced(Split(c, v, nb))
    ensures BinSizes(sz, Split(c, v, nb)) && Sorted(Split(c, v, nb), bins')
  {
    TilingSplit(c, base, top, v, nb);
    CoalescedSplit(c, base, top, v, nb);
    assert v + nb !in c;
    SortedUnsorted(c, bins, bins');
    SortedSame(c, Split(c, v, nb), bins');
  }

  // ---------- moving a chunk from the unsorted list to its bin ----------

  /** The heads of the chunks on a list, their PREV_INUSE bits set. */
  ghost predicate ListHeads(mem: seq<int>, c: Chunks, s: seq<int>) {
    forall k {:trigger s[k]} | 0 <= k < |s| :: s[k] in c && 0 <= s[k] < |mem| - 3 && mem[s[k] + 1] == Head(c[s[k]].n, true)
  }

  /** A free chunk never follows a free chunk, so its own PREV_INUSE bit is set. */
  lemma FreeHead(mem: seq<int>, c: Chunks, base: int, top: int, z: int)
    requires Tiling(c, base, top) && ARENA <= base && Coalesced(c) && Tags(mem, c) && z in c && c[z].kind.Binned?
    ensures 0 <= z < |mem| - 3 && mem[z + 1] == Head(c[z].n, true)
  {
    Before(mem, c, base, top, z);
    var q := z - mem[z];
    assert q in c && c[q].kind.Binned? ==> Succ(c, q) in c && !c[Succ(c, q)].kind.Binned?;
  }

  lemma HeadsOfList(m0: seq<int>, m1: seq<int>, c: Chunks, d: Chunks, base: int, top: int, bins: seq<seq<int>>, i: int)
    requires Tiling(c, base, top) && ARENA <= base && Coalesced(c) && Tags(m0, c) && SameTags(m0, m1, c, top, {})
    requires Lists(d, bins) && 1 <= i < NBINS && (forall a | a in d && d[a].kind.Binned? :: a in c && c[a] == d[a])
    ensures ListHeads(m1, d, bins[i])
  {
    forall k | 0 <= k < |bins[i]| ensures bins[i][k] in d && 0 <= bins[i][k] < |m1| - 3 && m1[bins[i][k] + 1] == Head(d[bins[i][k]].n, true) {
      assert OnList(d, bins, i, k);
      var z := bins[i][k];
      assert d[z].kind.Binned?;
      FreeHead(m0, c, base, top, z);
      assert SameTag(m0, m1, z);
    }
  }

  /** The state after one chunk moved from the unsorted list to bin `i`. */
  lemma MovedAbstract(sz: Width, m0: seq<int>, m2: seq<int>, c: Chunks, base: int, top: int,
                      bins1: seq<seq<int>>, i: nat, k: int, v: int)
    requires Tiling(c, base, top) && Coalesced(c) && Tags(m0, c) && SameTags(m0, m2, c, top, {})
    requires BinSizes(sz, c) && Sorted(c, bins1) && v in c && c[v].kind == Binned(1) && Lists(Taken(c, v), bins1)
    requires 2 <= i < NBINS && 0 <= k <= |bins1[i]| && Lists(Listed(Taken(c, v), v, i), bins1[i := With(bins1[i], k, v)])
    requires 0 <= Bytes(sz, c[v].n) < TWO32 && BinIndex(Bytes(sz, c[v].n)) == i
    requires i >= NSMALLBINS ==> FitsAt(Taken(c, v), bins1[i], k, c[v].n)
    ensures var c' := Listed(c, v, i);
            && c' == Listed(Taken(c, v), v, i)
            && Tiling(c', base, top) && Coalesced(c') && Tags(m2, c') && BinSizes(sz, c') && Sorted(c', bins1[i := With(bins1[i], k, v)])
  {
    hide FitsAt;
    var c' := Listed(c, v, i);
    assert c' == Listed(Taken(c, v), v, i);
    TilingSameSizes(c, c', base, top);
    TagsFrame(m0, m2, c, base, top);
    TagsSameFree(m2, c, c');
    FitsTaken(c, v, bins1[i], k);
    SortedWith(c, bins1, i, k, v);
    SortedRelist(c, v, i, bins1[i := With(bins1[i], k, v)]);
  }

  lemma FitsTaken(c: Chunks, v: int, s: seq<int>, k: int)
    requires v in c
    ensures FitsAt(Taken(c, v), s, k, c[v].n) ==> FitsAt(c, s, k, c[v].n)
  {
  }

  lemma SortedRelist(c: Chunks, v: int, i: nat, bins: seq<seq<int>>)
    requires v in c && Sorted(c, bins)
    ensures Sorted(Listed(c, v, i), bins)
  {
    forall j | NSMALLBINS <= j < NBINS ensures Descending(Listed(c, v, i), bins[j]) {
      assert Descending(c, bins[j]);
    }
  }

  lemma LastUnsorted(c: Chunks, bins: seq<seq<int>>)
    requires Lists(c, bins) && bins[1] != []
    ensures var v := bins[1][|bins[1]| - 1]; v in c && c[v].kind == Binned(1)
  {
    assert OnList(c, bins, 1, |bins[1]| - 1);
  }

  lemma SameMove(m0: seq<int>, m1: seq<int>, m2: seq<int>, c: Chunks, base: int, top: int, v: int)
    requires Tiling(c, base, top) && v in c && c[v].kind.Binned?
    requires SameTags(m0, m1, c, top, {}) && SameInside(m0, m1, c, -1)
    requires SameTags(m1, m2, Taken(c, v), top, {}) && SameInside(m1, m2, Taken(c, v), v)
    ensures SameTags(m0, m2, c, top, {}) && SameInside(m0, m2, c, -1) && SameTag(m0, m2, top)
  {
    forall a | a in c || a == top ensures SameTag(m0, m2, a) {
      assert SameTag(m0, m1, a) && (a in Taken(c, v) || a == top) && SameTag(m1, m2, a);
    }
    forall a, x | a != -1 && Inside(c, a, x) && 0 <= x < |m0| ensures m2[x] == m0[x] {
      assert Inside(Taken(c, v), a, x) && a != v;
    }
  }

  lemma LastListed(c: Chunks, base: int, top: int, bins: seq<seq<int>>, i: int)
    requires Tiling(c, base, top) && ARENA <= base && Lists(c, bins) && 1 <= i < NBINS && bins[i] != []
    ensures var v := bins[i][|bins[i]| - 1]; v in c && c[v].kind == Binned(i) && v >= ARENA
  {
    assert OnList(c, bins, i, |bins[i]| - 1);
  }

  /** A header that points back to itself has an empty list. */
  lemma EmptyRing(mem: seq<int>, h: int, s: seq<int>)
    requires Ring(mem, h, s)
    ensures mem[h + 3] == h <==> s == []
  {
    if s != [] { assert NodeOk(mem, h, s, |s| - 1); }
  }

  lemma NodeInList(mem: seq<int>, c: Chunks, base: int, top: int, bins: seq<seq<int>>, i: int, k: int)
    requires Tiling(c, base, top) && ARENA <= base && Lists(c, bins) && Rings(mem, bins) && 1 <= i < NBINS && -1 <= k < |bins[i]|
    ensures k >= 0 ==>
              && bins[i][k] in c && c[bins[i][k]].kind == Binned(i) && ARENA <= bins[i][k] && NodeOk(mem, BinAt(i), bins[i], k)
              && mem[bins[i][k] + 3] == if k > 0 then bins[i][k - 1] else BinAt(i)
  {
    if k >= 0 {
      assert OnList(c, bins, i, k);
      assert Ring(mem, BinAt(i), bins[i]) && NodeOk(mem, BinAt(i), bins[i], k);
    }
  }

  lemma HeaderOf(mem: seq<int>, bins: seq<seq<int>>, i: int)
    requires Rings(mem, bins) && 1 <= i < NBINS
    ensures BinAt(i) < |mem| - 3 && (mem[BinAt(i) + 3] == BinAt(i) <==> bins[i] == [])
    ensures bins[i] != [] ==> mem[BinAt(i) + 3] == bins[i][|bins[i]| - 1]
  {
    assert Ring(mem, BinAt(i), bins[i]);
    EmptyRing(mem, BinAt(i), bins[i]);
  }

  lemma BytesMin(sz: Width, n: int)
    requires MINWORDS <= n
    ensures 16 <= Bytes(sz, n)
  {
  }

  // ---------- splitting and growing the top ----------

  lemma CarvedLists(sz: Width, c: Chunks, base: int, top: int, bins: seq<seq<int>>, nb: int)
    requires Tiling(c, base, top) && BinSizes(sz, c) && Sorted(c, bins) && Lists(c, bins)
    ensures var c' := Carved(c, top, nb); BinSizes(sz, c') && Sorted(c', bins) && Lists(c', bins) && SameFast(c, c')
  {
    assert top !in c;
    ListsTransfer(c, Carved(c, top, nb), bins);
    SortedSame(c, Carved(c, top, nb), bins);
  }

  lemma CarvedMemory(mem: seq<int>, c: Chunks, base: int, top: int, bins: seq<seq<int>>, nb: int, n: int)
    requires Tiling(c, base, top) && ARENA <= base && Coalesced(c) && Tags(mem, c) && TopOk(mem, top, n)
    requires Rings(mem, bins) && Lists(c, bins)
    requires nb % 2 == 0 && MINWORDS <= nb && nb + MINWORDS <= n && top + n <= |mem|
    ensures var mem' := mem[top + 1 := Head(nb, true)][top + nb + 1 := Head(n - nb, true)];
            && Tags(mem', Carved(c, top, nb)) && Rings(mem', bins) && SameInside(mem, mem', c, -1)
  {
    var m1 := mem[top + 1 := Head(nb, true)];
    var mem' := m1[top + nb + 1 := Head(n - nb, true)];
    forall a | a in c && a != top ensures SameTag(mem, mem', a) { }
    TagsCarved(mem, mem', c, base, top, nb, n - nb);
    TagWrite(mem, c, base, top, bins, top, top + 1, Head(nb, true));
    AboveTop(m1, c, base, top, bins, top + nb + 1, Head(n - nb, true));
    HeadWriteInside(mem, c, base, top, top, top + 1, Head(nb, true), -1);
    SameInsideTrans(mem, m1, mem', c, -1);
  }

  /** Words past the top's head belong to nobody. */
  lemma AboveTop(mem: seq<int>, c: Chunks, base: int, top: int, bins: seq<seq<int>>, y: int, v: int)
    requires Tiling(c, base, top) && ARENA <= base && Rings(mem, bins) && Lists(c, bins) && top < y < |mem|
    ensures Rings(mem[y := v], bins) && SameInside(mem, mem[y := v], c, -1)
  {
    forall j | 1 <= j < NBINS ensures Ring(mem[y := v], BinAt(j), bins[j]) {
      forall k | 0 <= k < |bins[j]| ensures bins[j][k] + 3 < y { assert OnList(c, bins, j, k); }
      RingFrame(mem, mem[y := v], BinAt(j), bins[j]);
    }
    forall a, x | Inside(c, a, x) && 0 <= x < |mem| ensures mem[y := v][x] == mem[x] { }
  }

  function RoundUp(x: int, unit: int): (r: int)
    requires unit > 0
    ensures x <= r < x + unit
  {
    RoundUpBounds(x, unit);
    (x + unit - 1) / unit * unit
  }

  lemma RoundUpBounds(x: int, unit: int)
    requires unit > 0
    ensures x <= (x + unit - 1) / unit * unit < x + unit
  {
    var q := (x + unit - 1) / unit;
    assert x + unit - 1 == q * unit + (x + unit - 1) % unit;
  }

  lemma EmptyTop(sz: Width, mem: seq<int>, base: int, bins: seq<seq<int>>, v: int)
    requires ARENA <= base && base % 2 == 0 && base + 1 < |mem| && Rings(mem, bins) && forall i | 0 <= i < NBINS :: bins[i] == []
    ensures var mem' := mem[base + 1 := v];
            && Tiling(map[], base, base) && Coalesced(map[]) && Tags(mem', map[]) && Rings(mem', bins)
            && Lists(map[], bins) && BinSizes(sz, map[]) && Sorted(map[], bins)
  {
    forall j | 1 <= j < NBINS ensures Ring(mem[base + 1 := v], BinAt(j), bins[j]) {
      RingFrame(mem, mem[base + 1 := v], BinAt(j), bins[j]);
    }
  }

  lemma TopParity(c: Chunks, base: int, top: int)
    requires Tiling(c, base, top)
    ensures top % 2 == 0
  {
  }

  lemma EmptyKept(sz: Width, mem: seq<int>, mem': seq<int>, heads: seq<int>, fasts: seq<seq<int>>)
    requires Chains(mem, heads, fasts) && FastLists(map[], fasts) && |mem'| == |mem|
    ensures Chains(mem', heads, fasts) && Kept(mem, map[], mem', map[], -1)
  {
    forall j | 0 <= j < |fasts| ensures Chain(mem', heads[j], fasts[j]) {
      assert Chain(mem, heads[j], fasts[j]);
      HeadIsFast(mem, map[], heads, fasts, j);
    }
  }

  // ---------- the program writes into its chunks ----------

  /** Any word inside a chunk in use may be overwritten, including word 0 of the next chunk. */
  lemma UserWrite(sz: Width, mem: seq<int>, c: Chunks, base: int, top: int, bins: seq<seq<int>>,
                  heads: seq<int>, fasts: seq<seq<int>>, limit: int, a: int, x: int, v: int)
    requires Tiling(c, base, top) && ARENA <= base && top < |mem| - 1 && Tags(mem, c) && Rings(mem, bins) && Lists(c, bins)
    requires Chains(mem, heads, fasts) && FastLists(c, fasts) && FastSizes(sz, c, limit)
    requires Inside(c, a, x) && c[a].kind == Live
    ensures 0 <= x <= top
    ensures var mem' := mem[x := v];
            Tags(mem', c) && Rings(mem', bins) && Chains(mem', heads, fasts) && Kept(mem, c, mem', c, a) && mem'[top + 1] == mem[top + 1]
  {
    hide FastLists, FastSizes, Chains, Rings, Lists;
    var mem' := mem[x := v];
    UserWriteTags(mem, c, base, top, a, x, v);
    UserWriteRings(mem, c, base, top, bins, a, x, v);
    assert SameInside(mem, mem', c, a) by {
      forall b, y | b != a && Inside(c, b, y) && 0 <= y < |mem| ensures mem'[y] == mem[y] { }
    }
    FastKept(sz, mem, mem', c, c, base, top, heads, fasts, limit, a);
  }

  lemma UserWriteTags(mem: seq<int>, c: Chunks, base: int, top: int, a: int, x: int, v: int)
    requires Tiling(c, base, top) && ARENA <= base && top < |mem| - 1 && Tags(mem, c) && Inside(c, a, x)
    ensures 0 <= x <= top && Tags(mem[x := v], c)
  {
    hide PrevOk;
    var mem' := mem[x := v];
    assert HeadOk(mem, c, a);
    forall b | b in c ensures HeadOk(mem', c, b) && PrevOk(mem', c, b) { UserWriteTag(mem, c, base, top, a, x, v, b); }
  }

  lemma UserWriteTag(mem: seq<int>, c: Chunks, base: int, top: int, a: int, x: int, v: int, b: int)
    requires Tiling(c, base, top) && ARENA <= base && top < |mem| - 1 && Tags(mem, c) && Inside(c, a, x) && 0 <= x <= top && b in c
    ensures HeadOk(mem[x := v], c, b) && PrevOk(mem[x := v], c, b)
  {
    assert HeadOk(mem, c, a) && HeadOk(mem, c, b) && PrevOk(mem, c, b);
    assert Succ(c, b) == top || Succ(c, b) in c;
    assert b != x ==> SameTag(mem, mem[x := v], b);
  }

  lemma UserWriteRings(mem: seq<int>, c: Chunks, base: int, top: int, bins: seq<seq<int>>, a: int, x: int, v: int)
    requires Tiling(c, base, top) && ARENA <= base && top < |mem| - 1 && Rings(mem, bins) && Lists(c, bins) && Inside(c, a, x)
    ensures 0 <= x <= top && Rings(mem[x := v], bins)
  {
    forall j | 1 <= j < NBINS ensures Ring(mem[x := v], BinAt(j), bins[j]) {
      forall k | 0 <= k < |bins[j]| ensures x != bins[j][k] + 2 && x != bins[j][k] + 3 { assert OnList(c, bins, j, k); }
      RingFrame(mem, mem[x := v], BinAt(j), bins[j]);
    }
  }

  // ---------- resizing a chunk in use ----------

  function ResizeWords(mem: seq<int>, p: int, e: int, n: int): (mem': seq<int>)
    requires 0 <= p && p < p + n <= e && e + 1 < |mem|
    ensures |mem'| == |mem|
  {
    var m1 := mem[p + 1 := Head(n, Pinuse(mem[p + 1]))];
    var m2 := if p + n == e then m1 else m1[p + n + 1 := Head(e - p - n, true)];
    m2[e + 1 := SetPinuse(m2[e + 1])]
  }

  lemma ResizeBounds(c: Chunks, base: int, top: int, p: int, e: int, n: int)
    requires Tiling(c, base, top) && ResizeOk(c, top, p, e, n) && ARENA <= base
    ensures ARENA <= p < p + n <= e <= top && p + MINWORDS <= e && Succ(c, p) <= e
  {
  }

  lemma ResizeTags(m0: seq<int>, m1: seq<int>, c: Chunks, base: int, top: int, p: int, e: int, n: int, size: int)
    requires Tiling(c, base, top) && ARENA <= base && Coalesced(c) && Tags(m0, c) && ResizeOk(c, top, p, e, n)
    requires top + 1 < |m0| && TopOk(m0, top, size) && SameTags(m0, m1, c, top, {})
    ensures ARENA <= p < p + n <= e <= top
    ensures var m2 := ResizeWords(m1, p, e, n); Tags(m2, Resized(c, p, e, n)) && m2[top + 1] == m0[top + 1]
  {
    ResizeBounds(c, base, top, p, e, n);
    var m2 := ResizeWords(m1, p, e, n);
    assert SameTag(m0, m1, p) && SameTag(m0, m1, e) && SameTag(m0, m1, top);
    forall a | (a in Cut(c, p, e) || a == top) && a != e ensures SameTag(m0, m2, a) {
      assert SameTag(m0, m1, a);
    }
    TagsResized(m0, m2, c, base, top, p, e, n);
  }

  lemma ResizeRings(mem: seq<int>, c: Chunks, base: int, top: int, bins: seq<seq<int>>, p: int, e: int, n: int)
    requires Tiling(c, base, top) && ARENA <= base && ResizeOk(c, top, p, e, n) && top + 1 < |mem|
    requires Rings(mem, bins) && Lists(Resized(c, p, e, n), bins)
    ensures ARENA <= p < p + n <= e <= top && Rings(ResizeWords(mem, p, e, n), bins)
  {
    hide Rings, Lists, Resized, Disjoint, Linked, Shape;
    ResizeBounds(c, base, top, p, e, n);
    TilingResized(c, base, top, p, e, n);
    ResizedCases(c, base, top, p, e, n);
    var c' := Resized(c, p, e, n);
    var h := Head(n, Pinuse(mem[p + 1]));
    TagWrite(mem, c', base, top, bins, p, p + 1, h);
    var m1 := mem[p + 1 := h];
    if p + n < e { TagWrite(m1, c', base, top, bins, p + n, p + n + 1, Head(e - p - n, true)); }
    var m2 := if p + n == e then m1 else m1[p + n + 1 := Head(e - p - n, true)];
    TagWrite(m2, c', base, top, bins, e, e + 1, SetPinuse(m2[e + 1]));
  }

  lemma ResizeLists(sz: Width, c: Chunks, base: int, top: int, bins: seq<seq<int>>, p: int, e: int, n: int)
    requires Tiling(c, base, top) && Coalesced(c) && ResizeOk(c, top, p, e, n)
    requires BinSizes(sz, c) && Sorted(c, bins) && Lists(Held(c, p, e), bins)
    ensures var c' := Resized(c, p, e, n);
            Tiling(c', base, top) && Coalesced(c') && BinSizes(sz, c') && Sorted(c', bins) && Lists(c', bins)
  {
    hide Resized, Lists, Disjoint, Linked, Shape, Sorted;
    ResizedCases(c, base, top, p, e, n);
    TilingResized(c, base, top, p, e, n);
    CoalescedResized(c, base, top, p, e, n);
    ListsTransfer(Held(c, p, e), Resized(c, p, e, n), bins);
    SortedSame(c, Resized(c, p, e, n), bins);
  }

  // ---------- what realloc keeps ----------

  /** The chunks in use outside [p, e) are the same, contents included. */
  ghost predicate KeptOut(mem: seq<int>, c: Chunks, mem': seq<int>, c': Chunks, p: int, e: int) {
    && |mem'| == |mem|
    && (forall a | a in c && c[a].kind == Live && !(p <= a < e) :: a in c' && c'[a] == c[a])
    && (forall a | a in c' && c'[a].kind == Live && !(p <= a < e) :: a in c && c[a] == c'[a])
    && (forall a, x {:trigger Inside(c, a, x)} | Inside(c, a, x) && c[a].kind == Live && !(p <= a < e) && 0 <= x < |mem| :: mem'[x] == mem[x])
  }

  /** Words `2` to `k` of the chunk at `p` are the same. */
  ghost predicate SamePrefix(mem: seq<int>, mem': seq<int>, p: int, k: int) {
    forall x | p + 2 <= x <= p + k && 0 <= x < |mem| && x < |mem'| :: mem'[x] == mem[x]
  }

  lemma ResizeKept(mem: seq<int>, c: Chunks, base: int, top: int, p: int, e: int, n: int)
    requires Tiling(c, base, top) && ARENA <= base && ResizeOk(c, top, p, e, n) && top + 1 < |mem|
    requires forall a | a in c && p <= a < e :: !c[a].kind.Fast?
    ensures ARENA <= p < p + n <= e <= top
    ensures var mem', c' := ResizeWords(mem, p, e, n), Resized(c, p, e, n);
            && KeptOut(mem, c, mem', c', p, e) && SameLinks(mem, mem', c) && SameFast(c, c')
            && SamePrefix(mem, mem', p, n)
  {
    hide *;
    ResizeBounds(c, base, top, p, e, n);
    ResizeKeptOut(mem, c, base, top, p, e, n);
    ResizeKeptLinks(mem, c, base, top, p, e, n);
  }

  lemma ResizeKeptOut(mem: seq<int>, c: Chunks, base: int, top: int, p: int, e: int, n: int)
    requires Tiling(c, base, top) && ResizeOk(c, top, p, e, n) && top + 1 < |mem| && ARENA <= p < p + n <= e <= top
    ensures var mem', c' := ResizeWords(mem, p, e, n), Resized(c, p, e, n);
            KeptOut(mem, c, mem', c', p, e) && SamePrefix(mem, mem', p, n)
  {
    hide Resized, Linked;
    ResizedCases(c, base, top, p, e, n);
    var mem', c' := ResizeWords(mem, p, e, n), Resized(c, p, e, n);
    forall a, x | Inside(c, a, x) && c[a].kind == Live && !(p <= a < e) && 0 <= x < |mem| ensures mem'[x] == mem[x] { }
  }

  lemma ResizeKeptLinks(mem: seq<int>, c: Chunks, base: int, top: int, p: int, e: int, n: int)
    requires Tiling(c, base, top) && ResizeOk(c, top, p, e, n) && top + 1 < |mem| && ARENA <= p < p + n <= e <= top
    requires forall a | a in c && p <= a < e :: !c[a].kind.Fast?
    ensures SameLinks(mem, ResizeWords(mem, p, e, n), c) && SameFast(c, Resized(c, p, e, n))
  {
    hide Resized, Linked;
    ResizedCases(c, base, top, p, e, n);
  }

  /** A remainder freed again: only `p` is left in use of the range. */
  lemma KeptOutFree(m0: seq<int>, c0: Chunks, m1: seq<int>, c1: Chunks, m2: seq<int>, c2: Chunks, p: int, e: int, n: int)
    requires KeptOut(m0, c0, m1, c1, p, e) && Kept(m1, c1, m2, c2, p + n) && 0 < n < e - p
    requires p in c1 && c1[p] == Chunk(n, Live) && (forall a | a in c1 && p <= a < e :: a == p || a == p + n)
    requires !(p + n in c2 && c2[p + n].kind == Live) && 0 <= p && p + n < |m1|
    ensures KeptOut(m0, c0, m2, c2, p, e) && p in c2 && c2[p] == Chunk(n, Live)
    ensures forall a | a in c2 && c2[a].kind == Live && p <= a < e :: a == p
    ensures SamePrefix(m1, m2, p, n)
  {
    forall a, x | Inside(c0, a, x) && c0[a].kind == Live && !(p <= a < e) && 0 <= x < |m0| ensures m2[x] == m0[x] {
      assert Inside(c1, a, x);
    }
    forall x | p + 2 <= x <= p + n && 0 <= x < |m1| && x < |m2| ensures m2[x] == m1[x] {
      assert Inside(c1, p, x);
    }
  }

  lemma SamePrefixTrans(m0: seq<int>, m1: seq<int>, m2: seq<int>, p: int, k: int)
    requires |m0| == |m1| == |m2| && SamePrefix(m0, m1, p, k) && SamePrefix(m1, m2, p, k)
    ensures SamePrefix(m0, m2, p, k)
  {
  }

  lemma ResizedInRange(c: Chunks, base: int, top: int, p: int, e: int, n: int)
    requires Tiling(c, base, top) && ResizeOk(c, top, p, e, n)
    ensures var c' := Resized(c, p, e, n);
            && p in c' && c'[p] == Chunk(n, Live) && (p + n < e ==> p + n in c' && c'[p + n].kind == Live)
            && forall a | a in c' && p <= a < e :: a == p || (a == p + n && p + n < e)
  {
    ResizedCases(c, base, top, p, e, n);
  }

  lemma ResizedKinds(c: Chunks, base: int, top: int, p: int, e: int, n: int)
    requires Tiling(c, base, top) && ResizeOk(c, top, p, e, n)
    ensures var c' := Resized(c, p, e, n);
            forall a | a in c' && c'[a].kind != Live :: a in c && c[a] == c'[a]
  {
    ResizedCases(c, base, top, p, e, n);
  }

  lemma RangeParity(c: Chunks, base: int, top: int, p: int, e: int)
    requires Tiling(c, base, top) && p in c && (e in c || e == top)
    ensures (e - p) % 2 == 0 && base <= p && e <= top
  {
  }

  lemma KeptOutLength(m0: seq<int>, c0: Chunks, m1: seq<int>, c1: Chunks, p: int, e: int)
    requires KeptOut(m0, c0, m1, c1, p, e)
    ensures |m1| == |m0|
  {
  }

  lemma NextInRange(c: Chunks, base: int, top: int, p: int)
    requires Tiling(c, base, top) && Coalesced(c) && p in c && Succ(c, p) in c && c[Succ(c, p)].kind.Binned?
    ensures p < Succ(c, p)
    ensures var e := Succ(c, Succ(c, p)); e in c && p < e && forall a | a in c && p <= a < e :: a == p || a == Succ(c, p)
  {
    assert Succ(c, Succ(c, p)) in c;
  }

  // ---------- growing into the top ----------

  function GrowWords(mem: seq<int>, p: int, nb: int, rest: int): (mem': seq<int>)
    requires 0 <= p && 0 < nb && p + nb + 1 < |mem|
    ensures |mem'| == |mem|
  {
    mem[p + 1 := Head(nb, Pinuse(mem[p + 1]))][p + nb + 1 := Head(rest, true)]
  }

  lemma GrowMemory(sz: Width, mem: seq<int>, c: Chunks, base: int, top: int, bins: seq<seq<int>>, p: int, nb: int, rest: int)
    requires Tiling(c, base, top) && ARENA <= base && Coalesced(c) && Tags(mem, c) && Rings(mem, bins) && Lists(c, bins)
    requires BinSizes(sz, c) && Sorted(c, bins)
    requires p in c && c[p].kind == Live && Succ(c, p) == top && nb % 2 == 0 && c[p].n < nb && p + nb + 1 < |mem|
    ensures ARENA <= p
    ensures var mem', c' := GrowWords(mem, p, nb, rest), Grown(c, p, nb);
            && Tiling(c', base, p + nb) && Coalesced(c') && Tags(mem', c') && Rings(mem', bins) && Lists(c', bins)
            && BinSizes(sz, c') && Sorted(c', bins)
  {
    hide Rings, Lists, Sorted, Disjoint, Linked;
    var mem', c' := GrowWords(mem, p, nb, rest), Grown(c, p, nb);
    TilingGrown(c, base, top, p, nb);
    GrowTags(mem, c, base, top, p, nb, rest);
    TagWrite(mem, c, base, top, bins, p, p + 1, Head(nb, Pinuse(mem[p + 1])));
    AboveTop(mem[p + 1 := Head(nb, Pinuse(mem[p + 1]))], c, base, top, bins, p + nb + 1, Head(rest, true));
    ListsTransfer(c, c', bins);
    SortedSame(c, c', bins);
  }

  lemma GrowTags(mem: seq<int>, c: Chunks, base: int, top: int, p: int, nb: int, rest: int)
    requires Tiling(c, base, top) && ARENA <= base && Tags(mem, c)
    requires p in c && c[p].kind == Live && Succ(c, p) == top && nb % 2 == 0 && c[p].n < nb && p + nb + 1 < |mem|
    ensures ARENA <= p && Tags(GrowWords(mem, p, nb, rest), Grown(c, p, nb))
  {
    var mem' := GrowWords(mem, p, nb, rest);
    forall a | (a in c || a == top) && a != p && a != top ensures SameTag(mem, mem', a) { }
    TagsGrown(mem, mem', c, base, top, p, nb, rest);
  }

  lemma GrowKept(mem: seq<int>, c: Chunks, base: int, top: int, p: int, nb: int, rest: int)
    requires Tiling(c, base, top) && ARENA <= base
    requires p in c && c[p].kind == Live && Succ(c, p) == top && nb % 2 == 0 && c[p].n < nb && p + nb + 1 < |mem|
    ensures ARENA <= p
    ensures var mem', c' := GrowWords(mem, p, nb, rest), Grown(c, p, nb);
            SameInside(mem, mem', c, -1) && SameFast(c, c') && Kept(mem, c, mem', c', p) && SamePrefix(mem, mem', p, c[p].n)
  {
    var mem' := GrowWords(mem, p, nb, rest);
    forall a, x | a != -1 && Inside(c, a, x) && 0 <= x < |mem| ensures mem'[x] == mem[x] { }
  }
}

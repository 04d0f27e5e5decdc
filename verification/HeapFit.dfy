/** Which free chunk fits best, as the order of the bins decides it. */
module HeapFit {
  import opened HeapTags
  import opened HeapSizes
  import opened HeapLists
  import opened HeapFast
  import opened HeapBins

  /** `c'` is `c` with free chunks moved between lists. */
  ghost predicate Relisted(c: Chunks, c': Chunks) {
    SameSizes(c, c') && forall a | a in c :: c'[a].kind == c[a].kind || (c'[a].kind.Binned? && c[a].kind.Binned?)
  }

  lemma RelistedTrans(c0: Chunks, c1: Chunks, c2: Chunks)
    requires Relisted(c0, c1) && Relisted(c1, c2)
    ensures Relisted(c0, c2)
  {
  }

  /** `v` is a smallest free chunk of at least `nb` words. */
  ghost predicate BestFit(c: Chunks, v: int, nb: int) {
    && v in c && c[v].kind.Binned? && nb <= c[v].n
    && forall a | a in c && c[a].kind.Binned? && nb <= c[a].n :: c[v].n <= c[a].n
  }

  ghost predicate NoFit(c: Chunks, nb: int) {
    forall a | a in c && c[a].kind.Binned? :: c[a].n < nb
  }

  /** All free chunks are in the sorted bins, in the bin of their size. */
  ghost predicate AllBinned(sz: Width, c: Chunks) {
    BinSizes(sz, c) && forall a | a in c && c[a].kind.Binned? :: c[a].kind.bin >= 2
  }

  /** No chunk in the bin of index `i`, or an earlier one, fits. */
  ghost predicate NoFitUpTo(c: Chunks, nb: int, i: int) {
    forall a | a in c && c[a].kind.Binned? && c[a].kind.bin <= i :: c[a].n < nb
  }

  lemma Order(sz: Width, c: Chunks, base: int, top: int, limit: int, a: int, n: int)
    requires Tiling(c, base, top) && ARENA <= base && top <= limit && Bytes(sz, limit) <= TWO32
    requires a in c && MINWORDS <= n && Bytes(sz, n) < TWO32
    ensures BinIndex(Bytes(sz, c[a].n)) < BinIndex(Bytes(sz, n)) ==> c[a].n < n
    ensures BinIndex(Bytes(sz, c[a].n)) > BinIndex(Bytes(sz, n)) ==> c[a].n > n
  {
    ChunkBytes(sz, c, base, top, limit, a);
    if c[a].n <= n { BinIndexMonotone(Bytes(sz, c[a].n), Bytes(sz, n)); }
    if c[a].n >= n { BinIndexMonotone(Bytes(sz, n), Bytes(sz, c[a].n)); }
  }

  /** Chunks in bins before that of the request are too small. */
  lemma EarlierBins(sz: Width, c: Chunks, base: int, top: int, limit: int, nb: int)
    requires Tiling(c, base, top) && ARENA <= base && top <= limit && Bytes(sz, limit) <= TWO32
    requires AllBinned(sz, c) && MINWORDS <= nb && Bytes(sz, nb) < TWO32
    ensures NoFitUpTo(c, nb, BinIndex(Bytes(sz, nb)) - 1)
  {
    forall a | a in c && c[a].kind.Binned? && c[a].kind.bin <= BinIndex(Bytes(sz, nb)) - 1 ensures c[a].n < nb {
      Order(sz, c, base, top, limit, a, nb);
    }
  }

  /** A smallest fit of the first bin that has one is a best fit. */
  lemma FirstBinIsBest(sz: Width, c: Chunks, base: int, top: int, limit: int, v: int, nb: int)
    requires Tiling(c, base, top) && ARENA <= base && top <= limit && Bytes(sz, limit) <= TWO32
    requires AllBinned(sz, c) && v in c && c[v].kind.Binned? && nb <= c[v].n
    requires NoFitUpTo(c, nb, c[v].kind.bin - 1)
    requires forall a | a in c && c[a].kind == c[v].kind && nb <= c[a].n :: c[v].n <= c[a].n
    ensures BestFit(c, v, nb)
  {
    ChunkBytes(sz, c, base, top, limit, v);
    forall a | a in c && c[a].kind.Binned? && nb <= c[a].n ensures c[v].n <= c[a].n {
      Order(sz, c, base, top, limit, a, c[v].n);
    }
  }

  /** The last chunk of a bin is a smallest one of it. */
  lemma LastIsSmallest(sz: Width, c: Chunks, base: int, top: int, limit: int, bins: seq<seq<int>>, i: int)
    requires Tiling(c, base, top) && ARENA <= base && top <= limit && Bytes(sz, limit) <= TWO32
    requires BinSizes(sz, c) && Sorted(c, bins) && Lists(c, bins) && 2 <= i < NBINS && bins[i] != []
    ensures var v := bins[i][|bins[i]| - 1];
            v in c && c[v].kind == Binned(i) && forall a | a in c && c[a].kind == c[v].kind :: c[v].n <= c[a].n
  {
    var v := bins[i][|bins[i]| - 1];
    assert OnList(c, bins, i, |bins[i]| - 1);
    ChunkBytes(sz, c, base, top, limit, v);
    BinIndexRange(Bytes(sz, c[v].n));
    forall a | a in c && c[a].kind == c[v].kind ensures c[v].n <= c[a].n {
      ChunkBytes(sz, c, base, top, limit, a);
      BinIndexRange(Bytes(sz, c[a].n));
      if i >= NSMALLBINS {
        assert Descending(c, bins[i]);
        var k := Where(c, bins, a);
      } else {
        SmallBinSize(sz, c[a].n, c[v].n);
      }
    }
  }

  /** A small bin holds one size only. */
  lemma SmallBinSize(sz: Width, m: int, n: int)
    requires MINWORDS <= m && MINWORDS <= n && m % 2 == 0 && n % 2 == 0
    requires Bytes(sz, m) < 256 && Bytes(sz, n) < 256 && BinIndex(Bytes(sz, m)) == BinIndex(Bytes(sz, n))
    ensures m == n
  {
  }

  // ---------- what a request is promised ----------

  /** Where a chunk came from. */
  datatype Origin = Refused | Nowhere | FromFast | FromRemainder | FromBin | FromTop

  /** `p` is newly in use, with at least `nb` words and less than a minimal chunk to spare. */
  ghost predicate Granted(c: Chunks, c': Chunks, p: int, nb: int) {
    && p in c' && c'[p].kind == Live && nb <= c'[p].n < nb + MINWORDS
    && !(p in c && c[p].kind == Live)
  }

  /** The choice made, in terms of the chunks `c` at the moment of choosing. */
  ghost predicate Chosen(origin: Origin, c: Chunks, p: int, nb: int) {
    match origin
    case Refused => true
    case Nowhere => NoFit(c, nb)
    case FromTop => NoFit(c, nb) && forall a | a in c :: a + c[a].n <= p
    case FromFast => p in c && c[p].kind.Fast? && c[p].n == nb
    case FromBin => BestFit(c, p, nb)
    case FromRemainder =>
      && p in c && c[p].kind == Binned(1) && nb + MINWORDS < c[p].n
      && (forall a | a in c && c[a].kind == Binned(1) :: a == p)
      && (forall a | a in c && c[a].kind.Binned? :: c[a].n != nb)
  }

  lemma TakenGranted(mem: seq<int>, mem': seq<int>, c: Chunks, base: int, top: int, v: int, nb: int)
    requires Tiling(c, base, top) && ARENA <= base && v in c && c[v].kind.Binned? && nb <= c[v].n < nb + MINWORDS && SameInside(mem, mem', c, -1)
    ensures Granted(c, Taken(c, v), v, nb) && Kept(mem, c, mem', Taken(c, v), v) && SameFast(c, Taken(c, v))
  {
  }

  lemma SplitGranted(mem: seq<int>, mem': seq<int>, c: Chunks, base: int, top: int, v: int, nb: int)
    requires Tiling(c, base, top) && ARENA <= base && v in c && c[v].kind.Binned? && MINWORDS <= nb && nb + MINWORDS <= c[v].n
    requires SameInside(mem, mem', c, -1)
    ensures Granted(c, Split(c, v, nb), v, nb) && Kept(mem, c, mem', Split(c, v, nb), v) && SameFast(c, Split(c, v, nb))
  {
    assert v + nb !in c;
  }

  lemma RelistedKept(mem: seq<int>, mem': seq<int>, c: Chunks, c': Chunks)
    requires SameInside(mem, mem', c, -1) && Relisted(c, c') && (forall a | a in c :: a >= 0)
    ensures Kept(mem, c, mem', c', -1) && SameFast(c, c')
  {
  }

  lemma GrantedTrans(m0: seq<int>, c0: Chunks, m1: seq<int>, c1: Chunks, m2: seq<int>, c2: Chunks, p: int, nb: int)
    requires Kept(m0, c0, m1, c1, -1) && (forall a | a in c0 :: 0 <= a) && (forall a | a in c1 :: 0 <= a)
    requires Kept(m1, c1, m2, c2, p) && Granted(c1, c2, p, nb)
    ensures Kept(m0, c0, m2, c2, p) && Granted(c0, c2, p, nb)
  {
    KeptWeaken(m0, c0, m1, c1, p);
    KeptTrans(m0, c0, m1, c1, m2, c2, p);
  }

  /** The chunks of the small bin of `nb` have exactly `nb` words, and no other sorted chunk has. */
  lemma SmallBinExact(sz: Width, c: Chunks, base: int, top: int, limit: int, a: int, nb: int)
    requires Tiling(c, base, top) && ARENA <= base && top <= limit && Bytes(sz, limit) <= TWO32 && BinSizes(sz, c)
    requires MINWORDS <= nb && nb % 2 == 0 && Bytes(sz, nb) < MIN_LARGE_SIZE
    requires a in c && c[a].kind.Binned? && c[a].kind.bin >= 2
    ensures c[a].n == nb <==> c[a].kind.bin == Bytes(sz, nb) / 8
  {
    ChunkBytes(sz, c, base, top, limit, a);
    BytesAligned(sz, nb);
    BinIndexRange(Bytes(sz, c[a].n));
  }

  lemma FastExact(sz: Width, c: Chunks, base: int, top: int, limit: int, a: int, nb: int, maxFast: int)
    requires Tiling(c, base, top) && ARENA <= base && top <= limit && FastSizes(sz, c, maxFast)
    requires MINWORDS <= nb && nb % 2 == 0 && a in c && c[a].kind.Fast? && c[a].kind.slot == FastbinIndex(Bytes(sz, nb))
    ensures c[a].n == nb
  {
    ChunkBytes(sz, c, base, top, limit, a);
    BytesAligned(sz, nb);
  }

  /** With its fast list empty, no parked chunk has `nb` words. */
  lemma NoFastExact(sz: Width, c: Chunks, base: int, top: int, limit: int, fasts: seq<seq<int>>, nb: int, maxFast: int)
    requires Tiling(c, base, top) && ARENA <= base && top <= limit && FastSizes(sz, c, maxFast) && FastLists(c, fasts)
    requires MINWORDS <= nb && nb % 2 == 0 && 0 <= FastbinIndex(Bytes(sz, nb)) < |fasts| && fasts[FastbinIndex(Bytes(sz, nb))] == []
    ensures forall a | a in c && c[a].kind.Fast? :: c[a].n != nb
  {
    forall a | a in c && c[a].kind.Fast? ensures c[a].n != nb {
      ChunkBytes(sz, c, base, top, limit, a);
    }
  }

  lemma FastGranted(mem: seq<int>, c: Chunks, p: int, nb: int)
    requires p in c && c[p].kind.Fast? && c[p].n == nb
    ensures Granted(c, Taken(c, p), p, nb) && Kept(mem, c, mem, Taken(c, p), p)
  {
  }

  lemma ListedRelisted(c: Chunks, v: int, i: nat)
    requires v in c && c[v].kind.Binned?
    ensures Relisted(c, Listed(c, v, i))
  {
  }

  /** No chunk in the sorted bins has exactly `nb` words. */
  ghost predicate NoExact(c: Chunks, nb: int) {
    forall a | a in c && c[a].kind.Binned? && c[a].kind.bin >= 2 :: c[a].n != nb
  }

  lemma ListedNoExact(c: Chunks, v: int, i: nat, nb: int)
    requires v in c && NoExact(c, nb) && c[v].n != nb
    ensures NoExact(Listed(c, v, i), nb)
  {
  }

  lemma SmallBinEmpty(sz: Width, c: Chunks, base: int, top: int, limit: int, bins: seq<seq<int>>, nb: int)
    requires Tiling(c, base, top) && ARENA <= base && top <= limit && Bytes(sz, limit) <= TWO32 && BinSizes(sz, c) && Lists(c, bins)
    requires MINWORDS <= nb && nb % 2 == 0 && Bytes(sz, nb) < MIN_LARGE_SIZE && bins[Bytes(sz, nb) / 8] == []
    ensures NoExact(c, nb)
  {
    forall a | a in c && c[a].kind.Binned? && c[a].kind.bin >= 2 ensures c[a].n != nb {
      SmallBinExact(sz, c, base, top, limit, a, nb);
      assert a in bins[c[a].kind.bin];
    }
  }

  /** The only unsorted chunk is larger than needed, and no sorted one fits exactly. */
  lemma RemainderChosen(c: Chunks, bins: seq<seq<int>>, v: int, nb: int)
    requires Lists(c, bins) && bins[1] == [v] && NoExact(c, nb) && v in c && c[v].kind == Binned(1) && nb + MINWORDS < c[v].n
    ensures Chosen(FromRemainder, c, v, nb)
  {
    forall a | a in c && c[a].kind == Binned(1) ensures a == v { assert a in bins[1]; }
  }

  lemma ExactIsBest(c: Chunks, v: int, nb: int)
    requires v in c && c[v].kind.Binned? && c[v].n == nb
    ensures Chosen(FromBin, c, v, nb)
  {
  }

  lemma RelistedRefl(c: Chunks)
    ensures Relisted(c, c)
  {
  }

  lemma NoUnsorted(c: Chunks, bins: seq<seq<int>>)
    requires Lists(c, bins) && bins[1] == []
    ensures forall a | a in c && c[a].kind.Binned? :: c[a].kind.bin >= 2
  {
    forall a | a in c && c[a].kind.Binned? ensures c[a].kind.bin >= 2 { assert a in bins[c[a].kind.bin]; }
  }

  // ---------- scanning the bins ----------

  lemma EmptyBinsNoFit(c: Chunks, bins: seq<seq<int>>, nb: int, i: int, j: int)
    requires Lists(c, bins) && NoFitUpTo(c, nb, i - 1)
    requires forall b {:trigger bins[b]} | i <= b < j && 1 <= b < NBINS :: bins[b] == []
    ensures NoFitUpTo(c, nb, j - 1)
  {
    forall a | a in c && c[a].kind.Binned? && c[a].kind.bin <= j - 1 ensures c[a].n < nb {
      assert a in bins[c[a].kind.bin];
    }
  }

  /** Nothing fits once every bin has been passed. */
  lemma AllBinsNoFit(c: Chunks, bins: seq<seq<int>>, nb: int, i: int)
    requires Lists(c, bins) && NoFitUpTo(c, nb, i - 1) && NBINS <= i
    ensures NoFit(c, nb)
  {
  }

  /** The last chunk of the first nonempty bin past that of the request. */
  lemma ScanFinds(sz: Width, c: Chunks, base: int, top: int, limit: int, bins: seq<seq<int>>, i: int, nb: int)
    requires Tiling(c, base, top) && ARENA <= base && top <= limit && Bytes(sz, limit) <= TWO32
    requires AllBinned(sz, c) && Sorted(c, bins) && Lists(c, bins)
    requires MINWORDS <= nb && Bytes(sz, nb) < TWO32 && BinIndex(Bytes(sz, nb)) < i < NBINS && 2 <= i
    requires bins[i] != [] && NoFitUpTo(c, nb, i - 1)
    ensures var v := bins[i][|bins[i]| - 1]; v in c && c[v].kind == Binned(i) && nb <= c[v].n && Chosen(FromBin, c, v, nb)
  {
    LastIsSmallest(sz, c, base, top, limit, bins, i);
    var v := bins[i][|bins[i]| - 1];
    Order(sz, c, base, top, limit, v, nb);
    FirstBinIsBest(sz, c, base, top, limit, v, nb);
  }

  /** In a list in size order, the last chunk that fits, when no later one does, is a best fit. */
  lemma LargeFinds(sz: Width, c: Chunks, base: int, top: int, limit: int, bins: seq<seq<int>>, i: int, k: int, nb: int)
    requires Tiling(c, base, top) && ARENA <= base && top <= limit && Bytes(sz, limit) <= TWO32
    requires AllBinned(sz, c) && Sorted(c, bins) && Lists(c, bins)
    requires MINWORDS <= nb && Bytes(sz, nb) < TWO32 && BinIndex(Bytes(sz, nb)) == i && NSMALLBINS <= i < NBINS
    requires 0 <= k < |bins[i]| && bins[i][k] in c && nb <= c[bins[i][k]].n
    requires TailTooSmall(c, bins[i], k + 1, nb)
    ensures c[bins[i][k]].kind == Binned(i) && Chosen(FromBin, c, bins[i][k], nb)
  {
    assert OnList(c, bins, i, k);
    var v := bins[i][k];
    assert Descending(c, bins[i]);
    EarlierBins(sz, c, base, top, limit, nb);
    forall a | a in c && c[a].kind == c[v].kind && nb <= c[a].n ensures c[v].n <= c[a].n {
      var l := Where(c, bins, a);
    }
    FirstBinIsBest(sz, c, base, top, limit, v, nb);
  }

  ghost predicate TailTooSmall(c: Chunks, s: seq<int>, k: int, nb: int) {
    forall j {:trigger s[j]} | k <= j < |s| && 0 <= j && s[j] in c :: c[s[j]].n < nb
  }

  lemma LargeNoFit(sz: Width, c: Chunks, base: int, top: int, limit: int, bins: seq<seq<int>>, i: int, nb: int)
    requires Tiling(c, base, top) && ARENA <= base && top <= limit && Bytes(sz, limit) <= TWO32
    requires AllBinned(sz, c) && Lists(c, bins) && MINWORDS <= nb && BinIndex(Bytes(sz, nb)) == i < NBINS && 2 <= i
    requires TailTooSmall(c, bins[i], 0, nb)
    ensures NoFitUpTo(c, nb, i)
  {
    if Bytes(sz, nb) < TWO32 {
      EarlierBins(sz, c, base, top, limit, nb);
      forall a | a in c && c[a].kind.Binned? && c[a].kind.bin <= i ensures c[a].n < nb {
        var l := Where(c, bins, a);
      }
    } else {
      forall a | a in c ensures c[a].n < nb {
        ChunkBytes(sz, c, base, top, limit, a);
      }
    }
  }

  /** A small request for which there is no exact fit. */
  lemma SmallNoFit(sz: Width, c: Chunks, base: int, top: int, limit: int, nb: int)
    requires Tiling(c, base, top) && ARENA <= base && top <= limit && Bytes(sz, limit) <= TWO32
    requires AllBinned(sz, c) && MINWORDS <= nb && nb % 2 == 0 && Bytes(sz, nb) < MIN_LARGE_SIZE && NoExact(c, nb)
    ensures NoFitUpTo(c, nb, Bytes(sz, nb) / 8)
  {
    EarlierBins(sz, c, base, top, limit, nb);
    forall a | a in c && c[a].kind.Binned? && c[a].kind.bin <= Bytes(sz, nb) / 8 ensures c[a].n < nb {
      SmallBinExact(sz, c, base, top, limit, a, nb);
    }
  }

  lemma CarvedGranted(mem: seq<int>, mem': seq<int>, c: Chunks, base: int, top: int, nb: int)
    requires Tiling(c, base, top) && ARENA <= base && MINWORDS <= nb && SameInside(mem, mem', c, -1)
    ensures Granted(c, Carved(c, top, nb), top, nb) && Kept(mem, c, mem', Carved(c, top, nb), top)
  {
    assert top !in c;
  }

  // ---------- the promise of malloc ----------

  ghost predicate SameLive(c: Chunks, c': Chunks) {
    && (forall a | a in c && c[a].kind == Live :: a in c' && c'[a] == c[a])
    && (forall a | a in c' && c'[a].kind == Live :: a in c && c[a] == c'[a])
  }

  /** `mid` is `c` with every parked chunk coalesced: the same chunks in use tile the region from the
      same base on, and whatever lies between them is one free chunk each. */
  ghost predicate Merged(c: Chunks, mid: Chunks, base: int) {
    && (forall a | a in mid :: !mid[a].kind.Fast?)
    && SameLive(c, mid) && Coalesced(mid) && exists t :: Tiling(mid, base, t)
  }

  /** `mid` is `c` with free chunks moved between lists, or merged; the latter only for a large
      request, or when nothing fits without it. */
  ghost predicate Settled(c: Chunks, mid: Chunks, base: int, nb: int, large: bool) {
    Relisted(c, mid) || (Merged(c, mid, base) && (large || NoFit(c, nb)))
  }

  /** From a boundary they share, two ways of merging have the same chunks. */
  lemma {:induction false} MergedFrom(c: Chunks, d: Chunks, e: Chunks, base: int, td: int, te: int, a: int)
    requires Merged(c, d, base) && Merged(c, e, base) && Tiling(d, base, td) && Tiling(e, base, te)
    requires (a in d || a == td) && (a in e || a == te)
    ensures forall b | b in d && a <= b :: b in e && e[b].n == d[b].n && (e[b].kind == d[b].kind || (e[b].kind.Binned? && d[b].kind.Binned?))
    decreases td - a
  {
    if a in d {
      MergedStep(c, d, e, base, td, te, a);
      MergedFrom(c, d, e, base, td, te, Succ(d, a));
      forall b | b in d && a <= b && b != a
        ensures Succ(d, a) <= b
      {
      }
    }
  }

  /** The chunk at a shared boundary is the same. */
  lemma MergedStep(c: Chunks, d: Chunks, e: Chunks, base: int, td: int, te: int, a: int)
    requires Merged(c, d, base) && Merged(c, e, base) && Tiling(d, base, td) && Tiling(e, base, te)
    requires a in d && (a in e || a == te)
    ensures a in e && e[a].n == d[a].n && (e[a].kind == d[a].kind || (e[a].kind.Binned? && d[a].kind.Binned?))
    ensures a < Succ(d, a) && (Succ(d, a) in d || Succ(d, a) == td) && (Succ(d, a) in e || Succ(d, a) == te)
  {
    var x := Succ(d, a);
    assert x in d || x == td;
    if d[a].kind == Live {
      assert a in e && e[a] == d[a] && (Succ(e, a) in e || Succ(e, a) == te);
    } else {
      assert x in d && d[x].kind == Live;
      assert x in e && e[x] == d[x];
      assert a in e && e[a].kind.Binned?;
      var y := Succ(e, a);
      assert y in e && e[y].kind == Live;
      assert y in d;
    }
  }

  /** So there is one way of merging, up to the lists the free chunks are on. */
  lemma MergedIsUnique(c: Chunks, d: Chunks, e: Chunks, base: int)
    requires Merged(c, d, base) && Merged(c, e, base)
    ensures Relisted(d, e)
  {
    var td :| Tiling(d, base, td);
    var te :| Tiling(e, base, te);
    MergedBase(c, d, e, base, td, te);
    MergedFrom(c, d, e, base, td, te, base);
    MergedFrom(c, e, d, base, te, td, base);
    forall b | b in d ensures b in e { assert base <= b; }
    forall b | b in e ensures b in d { assert base <= b; }
    assert d.Keys == e.Keys;
  }

  lemma MergedBase(c: Chunks, d: Chunks, e: Chunks, base: int, td: int, te: int)
    requires Merged(c, d, base) && Merged(c, e, base) && Tiling(d, base, td) && Tiling(e, base, te)
    ensures (base in d || base == td) && (base in e || base == te)
  {
  }

  /** Without parked chunks, merging changes nothing but the lists. */
  lemma NothingToMerge(c: Chunks, mid: Chunks, base: int, top: int)
    requires Tiling(c, base, top) && Coalesced(c) && (forall a | a in c :: !c[a].kind.Fast?) && Merged(c, mid, base)
    ensures Relisted(c, mid)
  {
    MergedIsUnique(c, c, mid, base);
  }

  lemma RelistedMerged(c0: Chunks, c1: Chunks, c2: Chunks, base: int)
    requires Merged(c0, c1, base) && Relisted(c1, c2)
    ensures Merged(c0, c2, base)
  {
    var t :| Tiling(c1, base, t);
    TilingSameSizes(c1, c2, base, t);
    forall a | a in c2 && c2[a].kind.Binned?
      ensures Succ(c2, a) in c2 && !c2[Succ(c2, a)].kind.Binned?
    {
      assert Succ(c1, a) in c1 && !c1[Succ(c1, a)].kind.Binned?;
    }
  }

  lemma SettledTrans(c0: Chunks, c1: Chunks, c2: Chunks, base: int, nb: int, large: bool)
    requires Settled(c0, c1, base, nb, large) && Settled(c1, c2, base, nb, large)
    ensures Settled(c0, c2, base, nb, large)
  {
    hide Coalesced, Tiling;
    if Relisted(c0, c1) && Relisted(c1, c2) {
      RelistedTrans(c0, c1, c2);
    } else if Relisted(c1, c2) {
      RelistedMerged(c0, c1, c2, base);
    }
  }

  /** A request for `nb` words, answered with the user address `m` (0 for a failure): the chunks
      in use stay as they are, and the new one was chosen by the rules. */
  ghost predicate Answered(m0: seq<int>, c0: Chunks, m1: seq<int>, c1: Chunks, base: int, m: int, nb: int, large: bool,
                           origin: Origin, mid: Chunks)
  {
    && (m == 0 ==> Kept(m0, c0, m1, c1, -1) && origin.Nowhere?)
    && (m != 0 ==> Kept(m0, c0, m1, c1, m - 2) && Granted(c0, c1, m - 2, nb) && !origin.Nowhere? && !origin.Refused?)
    && Settled(c0, mid, base, nb, large) && Chosen(origin, mid, m - 2, nb)
  }

  lemma AnsweredAfter(m0: seq<int>, c0: Chunks, m1: seq<int>, c1: Chunks, m2: seq<int>, c2: Chunks, base: int,
                      m: int, nb: int, large: bool, origin: Origin, mid: Chunks)
    requires Kept(m0, c0, m1, c1, -1) && Settled(c0, c1, base, nb, large)
    requires (forall a | a in c0 :: 0 <= a) && (forall a | a in c1 :: 0 <= a)
    requires Answered(m1, c1, m2, c2, base, m, nb, large, origin, mid)
    ensures Answered(m0, c0, m2, c2, base, m, nb, large, origin, mid)
  {
    hide Settled, Chosen;
    SettledTrans(c0, c1, mid, base, nb, large);
    if m == 0 {
      KeptTrans(m0, c0, m1, c1, m2, c2, -1);
    } else {
      GrantedTrans(m0, c0, m1, c1, m2, c2, m - 2, nb);
    }
  }

  /** Told of the heap as it was before the call: with no parked chunks, or for a small request that
      some binned chunk fits, a chunk out of a bin is a best fit, and the top is used only if nothing fits. */
  lemma AnswerIsBest(m0: seq<int>, c0: Chunks, m1: seq<int>, c1: Chunks, base: int, top: int, m: int, nb: int, large: bool,
                     origin: Origin, mid: Chunks)
    requires Answered(m0, c0, m1, c1, base, m, nb, large, origin, mid) && Tiling(c0, base, top) && Coalesced(c0)
    requires (forall a | a in c0 :: !c0[a].kind.Fast?) || (!large && !NoFit(c0, nb))
    ensures origin.FromBin? ==> BestFit(c0, m - 2, nb)
    ensures origin.FromTop? || origin.Nowhere? ==> NoFit(c0, nb)
  {
    hide Kept, Granted, Tiling, Coalesced, Merged;
    if !Relisted(c0, mid) {
      NothingToMerge(c0, mid, base, top);
    }
  }

  /** A size in bytes as a number of words. */
  function Words(sz: Width, b: int): int { if sz == 4 then b / 4 else b / 8 }

  lemma RequestWords(sz: Width, bytes: nat)
    requires !RequestOutOfRange(sz, bytes) && (sz == 8 ==> SearchFits(RequestToSize(sz, bytes)))
    ensures var nb := Words(sz, RequestToSize(sz, bytes));
            nb % 2 == 0 && MINWORDS <= nb && Bytes(sz, nb) == RequestToSize(sz, bytes) && SearchFits(Bytes(sz, nb))
  {
    hide BinIndex;
    var b := RequestToSize(sz, bytes);
    if sz == 4 {
      assert b == 8 * (b / 8);
    } else {
      assert b == 16 * (b / 16);
    }
  }

  /** The retry of a small request asks for the same number of words, and is not refused. */
  lemma RetryRequest(sz: Width, nb: int)
    requires nb % 2 == 0 && MINWORDS <= nb && Bytes(sz, nb) < MIN_LARGE_SIZE
    ensures var bytes := Bytes(sz, nb) - (Alignment(sz) - 1);
            && 0 < bytes && !RequestOutOfRange(sz, bytes)
            && RequestToSize(sz, bytes) == Bytes(sz, nb) && Words(sz, RequestToSize(sz, bytes)) == nb
  {
    BytesAligned(sz, nb);
    RetrySizeIsStable(sz, Bytes(sz, nb));
  }

  lemma NoFreeNoFit(c: Chunks, nb: int)
    requires forall a | a in c :: c[a].kind == Live
    ensures NoFit(c, nb)
  {
  }

  lemma SettledRefl(c: Chunks, base: int, nb: int, large: bool)
    ensures Settled(c, c, base, nb, large)
  {
  }

  lemma AnsweredNow(m0: seq<int>, c0: Chunks, m1: seq<int>, c1: Chunks, base: int, p: int, nb: int, large: bool, origin: Origin, mid: Chunks)
    requires Kept(m0, c0, m1, c1, p) && Granted(c0, c1, p, nb) && Settled(c0, mid, base, nb, large) && Chosen(origin, mid, p, nb)
    requires (forall a | a in c1 :: 0 <= a) && !origin.Nowhere? && !origin.Refused?
    ensures p + 2 != 0 && Answered(m0, c0, m1, c1, base, p + 2, nb, large, origin, mid)
  {
  }

  /** An answer from the top, or none. */
  lemma AnsweredTop(m0: seq<int>, c0: Chunks, m1: seq<int>, c1: Chunks, base: int, m: int, nb: int, large: bool, origin: Origin)
    requires NoFit(c0, nb) && Settled(c0, c0, base, nb, large)
    requires m == 0 ==> Kept(m0, c0, m1, c1, -1) && origin == Nowhere
    requires m != 0 ==> Kept(m0, c0, m1, c1, m - 2) && Granted(c0, c1, m - 2, nb) && origin == FromTop
    requires m != 0 ==> forall a | a in c0 :: a + c0[a].n <= m - 2
    ensures Answered(m0, c0, m1, c1, base, m, nb, large, origin, c0)
  {
    hide Kept, Granted, NoFit, Settled;
  }

  lemma RelistedSettled(c: Chunks, mid: Chunks, base: int, nb: int, large: bool)
    requires Relisted(c, mid)
    ensures Settled(c, mid, base, nb, large)
  {
  }

  /** Consolidation merges. */
  lemma KeptMerged(m0: seq<int>, c0: Chunks, m1: seq<int>, c1: Chunks, base: int, top: int)
    requires Kept(m0, c0, m1, c1, -1) && (forall a | a in c0 :: 0 <= a) && (forall a | a in c1 :: 0 <= a)
    requires Tiling(c1, base, top) && Coalesced(c1) && forall a | a in c1 :: !c1[a].kind.Fast?
    ensures Merged(c0, c1, base)
  {
  }

  // ---------- copying between chunks ----------

  /** The first `k` words from `oldp + 2` on are copied to `newp + 2` on, and nothing else differs. */
  ghost predicate Copied(m0: seq<int>, m1: seq<int>, oldp: int, newp: int, k: int) {
    && |m1| == |m0| && 0 <= oldp && 0 <= newp && oldp + 2 + k <= |m0| && newp + 2 + k <= |m0|
    && (forall j | newp + 2 <= j < newp + 2 + k :: m1[j] == m0[oldp - newp + j])
    && (forall x | 0 <= x < |m0| && !(newp + 2 <= x < newp + 2 + k) :: m1[x] == m0[x])
  }

  // ---------- the promise of realloc ----------

  /** Chunk `p` has become chunk `q` (possibly the same address) with room for `nb` words: every
      other chunk in use is as before, and what fits of the old contents is kept. */
  ghost predicate Reallocated(m0: seq<int>, c0: Chunks, m1: seq<int>, c1: Chunks, p: int, q: int, nb: int) {
    && |m1| == |m0| && p in c0 && q in c1 && c1[q].kind == Live && nb <= c1[q].n < nb + MINWORDS
    && (forall a | a in c0 && c0[a].kind == Live && a != p :: a != q && a in c1 && c1[a] == c0[a])
    && (forall a | a in c1 && c1[a].kind == Live && a != q :: a != p && a in c0 && c0[a] == c1[a])
    && (forall a, x {:trigger Inside(c0, a, x)} | Inside(c0, a, x) && c0[a].kind == Live && a != p && 0 <= x < |m0| :: m1[x] == m0[x])
    && (forall x | q + 2 <= x <= q + c1[q].n && x <= q + c0[p].n && 0 <= x < |m1| && 0 <= x - q + p < |m0| :: m1[x] == m0[x - q + p])
  }

  lemma ReallocInPlace(m0: seq<int>, mu: seq<int>, c0: Chunks, m1: seq<int>, c1: Chunks, base: int, top: int, p: int, e: int, nb: int)
    requires Tiling(c0, base, top) && ARENA <= base && SameInside(m0, mu, c0, -1) && KeptOut(mu, c0, m1, c1, p, e)
    requires p in c0 && c0[p].kind == Live && (forall a | a in c0 && c0[a].kind == Live && p <= a < e :: a == p)
    requires p in c1 && c1[p].kind == Live && (forall a | a in c1 && c1[a].kind == Live && p <= a < e :: a == p)
    requires nb <= c1[p].n < nb + MINWORDS && SamePrefix(mu, m1, p, c1[p].n)
    ensures Reallocated(m0, c0, m1, c1, p, p, nb)
  {
    forall x | p + 2 <= x <= p + c1[p].n && x <= p + c0[p].n && 0 <= x < |m1| ensures m1[x] == m0[x] {
      assert Inside(c0, p, x);
    }
  }

  lemma ReallocJoined(m0: seq<int>, c0: Chunks, m1: seq<int>, c1: Chunks, m2: seq<int>, c2: Chunks, p: int, q: int, e: int, nb: int)
    requires Kept(m0, c0, m1, c1, q) && Granted(c0, c1, q, nb) && KeptOut(m1, c1, m2, c2, p, e)
    requires p in c0 && c0[p].kind == Live && (forall a | a in c1 && c1[a].kind == Live && p <= a < e :: a == p || a == q)
    requires p < q < e && p in c2 && c2[p].kind == Live && (forall a | a in c2 && c2[a].kind == Live && p <= a < e :: a == p)
    requires nb <= c2[p].n < nb + MINWORDS && SamePrefix(m1, m2, p, c2[p].n)
    ensures Reallocated(m0, c0, m2, c2, p, p, nb)
  {
    forall a, x | Inside(c0, a, x) && c0[a].kind == Live && a != p && 0 <= x < |m0| ensures m2[x] == m0[x] {
      assert a != q && Inside(c1, a, x);
    }
    forall x | p + 2 <= x <= p + c2[p].n && x <= p + c0[p].n && 0 <= x < |m2| ensures m2[x] == m0[x] {
      assert Inside(c0, p, x);
    }
  }

  lemma ReallocCopied(m0: seq<int>, c0: Chunks, m1: seq<int>, c1: Chunks, m2: seq<int>, m3: seq<int>, c3: Chunks, p: int, q: int, nb: int)
    requires Kept(m0, c0, m1, c1, q) && Granted(c0, c1, q, nb) && p in c0 && c0[p].kind == Live
    requires Kept(m1, c1, m2, c1, q) && Copied(m1, m2, p, q, c0[p].n - 1) && c0[p].n <= c1[q].n
    requires Kept(m2, c1, m3, c3, p) && !(p in c3 && c3[p].kind == Live)
    ensures Reallocated(m0, c0, m3, c3, p, q, nb)
  {
    forall a, x | Inside(c0, a, x) && c0[a].kind == Live && a != p && 0 <= x < |m0| ensures m3[x] == m0[x] {
      assert a != q && Inside(c1, a, x);
    }
    forall x | q + 2 <= x <= q + c3[q].n && x <= q + c0[p].n && 0 <= x < |m3| && 0 <= x - q + p < |m0| ensures m3[x] == m0[x - q + p] {
      assert Inside(c0, p, x - q + p) && Inside(c1, q, x);
    }
  }

  lemma ReallocGrown(m0: seq<int>, c0: Chunks, m1: seq<int>, c1: Chunks, p: int, nb: int)
    requires Kept(m0, c0, m1, c1, p) && p in c0 && c0[p].kind == Live && p in c1 && c1[p] == Chunk(nb, Live) && SamePrefix(m0, m1, p, c0[p].n)
    ensures Reallocated(m0, c0, m1, c1, p, p, nb)
  {
  }

  lemma CopyRequest(sz: Width, nb: int)
    requires nb % 2 == 0 && MINWORDS <= nb
    ensures var bytes := Bytes(sz, nb) - (Alignment(sz) - 1);
            0 < bytes && RequestToSize(sz, bytes) == Bytes(sz, nb) && Words(sz, RequestToSize(sz, bytes)) == nb
  {
    BytesAligned(sz, nb);
    RetrySizeIsStable(sz, Bytes(sz, nb));
  }

  /** A request that is out of range does not fit into the arena either. */
  lemma TooLargeForArena(sz: Width, nb: int, limit: int)
    requires MINWORDS <= nb && 0 <= Bytes(sz, limit) <= TWO32
    requires RequestOutOfRange(sz, Bytes(sz, nb) - (Alignment(sz) - 1))
    ensures limit < ARENA + nb
  {
  }

  lemma StillUsed(m0: seq<int>, c0: Chunks, m1: seq<int>, c1: Chunks, p: int, q: int)
    requires Kept(m0, c0, m1, c1, q) && p in c0 && c0[p].kind == Live && !(q in c0 && c0[q].kind == Live)
    ensures p != q && p in c1 && c1[p] == c0[p]
  {
  }
}

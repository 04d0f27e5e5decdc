/** The allocator: malloc, free, consolidation and realloc on word memory. */
module Heap {
  import opened HeapTags
  import opened HeapSizes
  import opened HeapLists
  import opened HeapBinmap
  import opened HeapFast
  import opened HeapBins
  import opened HeapFit
  import opened HeapRules

  class Heap {
    const sz: Width
    const page: int
    const topPad: nat
    const trimThreshold: nat

    var mem: seq<int>
    var brk: int
    var top: int
    var lastRemainder: int
    var maxFast: nat
    var fastbins: seq<int>
    var binmap: seq<nat>

    ghost var base: int
    ghost var c: Chunks
    ghost var bins: seq<seq<int>>
    ghost var fasts: seq<seq<int>>

    ghost function Now(): Stage
      reads this`c, this`bins, this`fasts, this`base, this`top, this`brk, this`lastRemainder
    {
      Stage(c, bins, fasts, base, top, brk, lastRemainder)
    }

    /** The region, the tags and the lists of free chunks, once the top chunk exists. */
    ghost predicate Core()
      reads this`mem, this`brk, this`top, this`base, this`c, this`bins
    {
      && ARENA <= base <= top && Tiling(c, base, top) && Coalesced(c) && Tags(mem, c)
      && TopOk(mem, top, brk - top) && MINWORDS <= brk - top && brk <= |mem|
      && |bins| == NBINS && Rings(mem, bins) && Lists(c, bins)
      && BinSizes(sz, c) && Sorted(c, bins)
    }

    /** Initialized, but no memory obtained yet: the top is the header of the unsorted bin. */
    ghost predicate Unopened()
      reads this`mem, this`c, this`bins, this`maxFast
    {
      && c == map[] && |bins| == NBINS && (forall i | 0 <= i < NBINS :: bins[i] == []) && Rings(mem, bins)
      && |mem| >= ARENA && mem[BinAt(1) + 1] == 0 && !HaveAny(maxFast)
    }

    /** The fast lists, the bitmap and the flags. */
    ghost predicate Tables()
      reads this`mem, this`brk, this`c, this`bins, this`fasts, this`maxFast, this`fastbins, this`binmap
    {
      && ARENA <= brk <= |mem| && 0 < page && page % 2 == 0 && 0 <= Bytes(sz, |mem|) <= TWO32
      && MaxFast(maxFast) == RequestToSize(sz, 64)
      && FastOk(fastbins) && BinmapOk(binmap, bins)
      && (HaveFast(maxFast) ==> HaveAny(maxFast))
      && (forall a | a in c && c[a].kind.Fast? :: HaveFast(maxFast))
      && (forall a | a in c && c[a].kind != Live :: HaveAny(maxFast))
    }

    ghost predicate Ready()
      reads this`mem, this`brk, this`top, this`base, this`c, this`bins, this`fasts, this`maxFast, this`fastbins, this`binmap
    {
      Tables() && if top == BinAt(1) then Unopened() else Core()
    }

    /** The all-zero state before the first call. */
    ghost predicate Zeroed()
      reads this`mem, this`brk, this`top, this`c, this`fastbins, this`binmap
    {
      && ARENA <= brk <= |mem| && 0 < page && page % 2 == 0 && 0 <= Bytes(sz, |mem|) <= TWO32
      && c == map[] && top == 0 && mem[BinAt(1) + 1] == 0
      && |fastbins| == NFastbins(sz) && (forall j | 0 <= j < |fastbins| :: fastbins[j] == 0) && binmap == [0, 0, 0, 0]
    }

    ghost predicate Valid()
      reads this`mem, this`brk, this`top, this`base, this`c, this`bins, this`fasts, this`maxFast, this`fastbins, this`binmap
    {
      if maxFast == 0 then Zeroed() else Ready()
    }

    /** Memory of `limit` words, all zero; the system's break is at `start`. */
    constructor (sz: Width, page: int, topPad: nat, trimThreshold: nat, limit: nat, start: int)
      requires 0 < page && page % 2 == 0 && ARENA <= start <= limit && Bytes(sz, limit) <= TWO32
      ensures Valid() && maxFast == 0 && c == map[] && |mem| == limit
      ensures this.sz == sz && this.page == page && this.topPad == topPad && this.trimThreshold == trimThreshold
    {
      this.sz, this.page, this.topPad, this.trimThreshold := sz, page, topPad, trimThreshold;
      mem := seq(limit, i => 0);
      brk, top, lastRemainder, maxFast := start, 0, 0, 0;
      fastbins := seq(NFastbins(sz), i => 0);
      binmap := [0, 0, 0, 0];
      base, c, bins, fasts := 0, map[], [], [];
    }

    /** unlink: takes `z` off its list.  Its check of the neighbours' links always passes. */
    method Unlink(z: int, ghost d: Chunks, ghost i: int, ghost k: int)
      requires Tiling(d, base, top) && ARENA <= base && Rings(mem, bins) && Lists(d, bins)
      requires 1 <= i < NBINS && 0 <= k < |bins[i]| && z == bins[i][k]
      modifies this`mem, this`bins
      ensures z in d && Rings(mem, bins) && Lists(Taken(d, z), bins)
      ensures bins == old(bins)[i := Without(old(bins[i]), k)]
      ensures |mem| == |old(mem)|
      ensures SameTags(old(mem), mem, d, top, {}) && SameInside(old(mem), mem, d, -1)
    {
      RingsUnlink(mem, d, base, top, bins, i, k);
      ListsTaken(d, bins, i, k);
      var fd, bk := mem[z + 2], mem[z + 3];
      assert mem[fd + 3] == z && mem[bk + 2] == z;
      mem := mem[fd + 3 := bk];
      mem := mem[bk + 2 := fd];
      bins := bins[i := Without(bins[i], k)];
    }

    /** Links `z` into the list of bin `i`, before position `k`. */
    method Link(z: int, bck: int, fwd: int, ghost d: Chunks, ghost i: nat, ghost k: int)
      requires Tiling(d, base, top) && ARENA <= base && top < |mem| && Rings(mem, bins) && Lists(d, bins)
      requires 1 <= i < NBINS && 0 <= k <= |bins[i]|
      requires z in d && !d[z].kind.Binned?
      requires fwd == (if k < |bins[i]| then bins[i][k] else BinAt(i))
      requires bck == (if k > 0 then bins[i][k - 1] else BinAt(i))
      modifies this`mem, this`bins
      ensures Rings(mem, bins) && Lists(Listed(d, z, i), bins)
      ensures bins == old(bins)[i := With(old(bins[i]), k, z)]
      ensures |mem| == |old(mem)|
      ensures SameTags(old(mem), mem, d, top, {}) && SameInside(old(mem), mem, d, z)
    {
      hide Tiling, Lists, SameTags, SameInside, Ring, NodeOf, With;
      RingsInsert(mem, d, base, top, bins, i, k, z);
      ListsInserted(d, bins, i, k, z);
      InsertPosition(mem, d, base, top, bins, i, k, z);
      mem := mem[z + 3 := bck];
      mem := mem[z + 2 := fwd];
      mem := mem[bck + 2 := z];
      mem := mem[fwd + 3 := z];
      bins := bins[i := With(bins[i], k, z)];
    }

    /** In the middle of coalescing around `p`: the chunks of [q, e) are off their lists, and
        `m0` is the memory before it started. */
    ghost predicate Absorbing(m0: seq<int>, p: int, q: int, e: int)
      reads this`mem, this`brk, this`top, this`base, this`c, this`bins
    {
      && ARENA <= base <= top && Tiling(c, base, top) && Coalesced(c) && Tags(m0, c)
      && MINWORDS <= brk - top && brk <= |mem| && TopOk(m0, top, brk - top)
      && BinSizes(sz, c) && Sorted(c, bins) && |bins| == NBINS && Rings(mem, bins) && Lists(Held(c, q, e), bins)
      && SameInside(m0, mem, c, -1)
      && p in c && c[p].kind == Live && Range(c, p, q, e) && UsedBefore(c, q)
    }

    /** Absorbs the free chunk before `p`, if there is one. */
    method AbsorbBefore(p: int) returns (q: int, size: int)
      requires Core() && p in c && c[p].kind == Live
      modifies this`mem, this`bins
      ensures Absorbing(old(mem), p, q, Succ(c, p)) && q + size == Succ(c, p)
      ensures SameTags(old(mem), mem, c, top, {})
      ensures Fewer(old(bins), bins)
    {
      hide Tiling, Coalesced, Rings, BinSizes, Tags, Range, Held, UsedBefore;
      Before(mem, c, base, top, p);
      HeldOne(c, base, top, p);
      RangeFrom(c, base, top, p);
      size := SizeOf(mem[p + 1]);
      q := p;
      if !Pinuse(mem[p + 1]) {
        var prevsize := mem[p];
        size := size + prevsize;
        q := p - prevsize;
        ghost var k := Where(c, bins, q);
        SortedWithout(c, bins, c[q].kind.bin, k);
        HeldBack(c, base, top, q, p, Succ(c, p));
        Unlink(q, c, c[q].kind.bin, k);
      }
    }

    /** Clears the PREV_INUSE bit of the chunk after `p`, and absorbs that chunk if it is free. */
    method AbsorbAfter(next: int, nextsize: int, ghost m0: seq<int>, ghost p: int, ghost q: int) returns (extra: int)
      requires Absorbing(m0, p, q, next) && next == Succ(c, p) && next != top
      requires next in c && nextsize == c[next].n
      requires SameTags(m0, mem, c, top, {})
      modifies this`mem, this`bins
      ensures Absorbing(m0, p, q, next + extra)
      ensures next + extra in c && !c[next + extra].kind.Binned?
      ensures SameTags(m0, mem, Cut(c, q, next + extra), top, {next + extra})
      ensures mem[next + extra + 1] == Head(c[next + extra].n, false)
      ensures Fewer(old(bins), bins)
    {
      hide Tiling, Coalesced, Tags, Rings, Lists, Sorted, BinSizes, SameInside, SameTags, UsedBefore;
      After(m0, c, base, top, p);
      ClearAfter(m0, mem, c, base, top, q, p, next);
      var nextinuse := Pinuse(mem[next + nextsize + 1]);
      ghost var m1, d := mem, Held(c, q, next);
      TilingSameSizes(c, d, base, top);
      TagWrite(mem, d, base, top, bins, next, next + 1, Head(nextsize, false));
      HeadWriteInside(mem, c, base, top, next, next + 1, Head(nextsize, false), -1);
      SameInsideTrans(m0, mem, mem[next + 1 := Head(nextsize, false)], c, -1);
      mem := mem[next + 1 := Head(nextsize, false)];
      extra := 0;
      if !nextinuse {
        ghost var m2 := mem;
        ghost var k := Where(d, bins, next);
        SortedWithout(c, bins, c[next].kind.bin, k);
        HeldOn(c, base, top, q, next);
        Unlink(next, d, c[next].kind.bin, k);
        SameTagsHeld(m2, mem, c, top, q, next);
        ClearAfterFree(m0, m1, mem, c, base, top, q, p, next);
        SameInsideHeld(m0, m2, mem, c, q, next);
        extra := nextsize;
      }
    }

    /** Puts the coalesced chunk at the front of the unsorted list and writes its tags. */
    method Enlist(q: int, size: int, ghost m0: seq<int>, ghost p: int)
      requires Absorbing(m0, p, q, q + size) && q + size in c && !c[q + size].kind.Binned?
      requires SameTags(m0, mem, Cut(c, q, q + size), top, {q + size})
      requires mem[q + size + 1] == Head(c[q + size].n, false)
      modifies this`mem, this`bins, this`c
      ensures Core() && SameUsed(old(c), c, p) && SameInside(m0, mem, old(c), p)
      ensures Fewer(old(bins), bins)
      ensures c == Fused(old(c), q, q + size) && bins[1] != [] && bins[1][0] == q
    {
      hide Tiling, Coalesced, Tags, Lists, Sorted, BinSizes, SameInside, SameTags, UsedBefore, Range, Fused, Held, Cut, SameUsed;
      ghost var e, d, m1 := q + size, Held(c, q, q + size), mem;
      RangeBounds(c, base, top, p, q, e);
      var bck := BinAt(1);
      var fwd := mem[BinAt(1) + 2];
      assert Ring(mem, BinAt(1), bins[1]);
      Link(q, bck, fwd, d, 1, 0);
      ghost var m2 := mem;
      mem := mem[q + 1 := Head(size, true)];
      mem := mem[q + size := size];
      SameTagsHeld(m1, m2, c, top, q, e);
      FusedTags(m0, m1, m2, c, base, top, p, q, e);
      FusedInside(m0, m1, m2, c, base, top, p, q, e);
      FusedRings(m2, c, base, top, bins, q, e);
      FusedLists(c, bins, p, q, e);
      TilingFused(c, base, top, q, e);
      BinSizesFewer(sz, c, Fused(c, q, e));
      SortedUnsorted(c, old(bins), bins);
      SortedSame(c, Fused(c, q, e), bins);
      c := Fused(c, q, e);
    }

    /** Makes the coalesced chunk, which borders the top, part of the top. */
    method JoinTop(q: int, size: int, ghost m0: seq<int>, ghost p: int)
      requires Absorbing(m0, p, q, top) && q + size == brk && SameTags(m0, mem, c, top, {})
      modifies this`mem, this`top, this`c
      ensures Core() && SameUsed(old(c), c, p) && SameInside(m0, mem, old(c), p)
      ensures c == Cut(old(c), q, old(top)) && top == q
    {
      hide Tiling, Coalesced, Tags, Rings, Lists, Sorted, BinSizes, SameInside, SameTags, UsedBefore, Range;
      RangeBounds(c, base, top, p, q, top);
      CutMemory(m0, mem, c, base, top, bins, p, q, size);
      CutLists(c, bins, base, top, p, q);
      TilingCut(c, base, top, q);
      BinSizesFewer(sz, c, Cut(c, q, top));
      SortedSame(c, Cut(c, q, top), bins);
      mem := mem[q + 1 := Head(size, true)];
      c := Cut(c, q, top);
      top := q;
    }

    /** Frees chunk `p`: coalesces it with its free neighbours and puts the result on the
        unsorted list, or into the top.  The coalesced size is returned. */
    method Coalesce(p: int) returns (size: int, ghost lo: int, ghost hi: int)
      requires Core() && p in c && c[p].kind == Live
      modifies this`mem, this`bins, this`top, this`c
      ensures Core() && SameUsed(old(c), c, p) && SameInside(old(mem), mem, old(c), p)
      ensures Fewer(old(bins), bins)
      ensures Freed(old(Now()), Now(), p, lo, hi) && size == FreedSize(old(Now()), lo, hi)
    {
      hide Tiling, Coalesced, Rings, Lists, Sorted, BinSizes, SameInside, UsedBefore, Range, Cut, Fused;
      ghost var m0 := mem;
      NextChunk(mem, c, base, top, p);
      var next := p + SizeOf(mem[p + 1]);
      var nextsize := SizeOf(mem[next + 1]);
      var q;
      q, size := AbsorbBefore(p);
      if next != top {
        var extra := AbsorbAfter(next, nextsize, m0, p, q);
        size := size + extra;
        lo, hi := q, q + size;
        BelowTop(c, base, top, hi);
        Enlist(q, size, m0, p);
      } else {
        lo, hi := q, top;
        NotTop(c, base, top);
        size := size + nextsize;
        JoinTop(q, size, m0, p);
      }
    }

    // ---------- fast lists ----------

    ghost predicate FastOk(heads: seq<int>)
      reads this`mem, this`c, this`fasts
    {
      && |heads| == |fasts| == NFastbins(sz)
      && Chains(mem, heads, fasts) && FastLists(c, fasts) && FastSizes(sz, c, RequestToSize(sz, 64))
    }

    /** Takes the first chunk of fast list `j`; the list's head word is `heads[j]`. */
    ghost method PopFast(heads: seq<int>, j: nat) returns (p: int)
      requires Core() && FastOk(heads) && j < |fasts| && fasts[j] != []
      modifies this`c, this`fasts
      ensures p == heads[j] == old(fasts)[j][0] && p in old(c) && old(c[p]).kind == Fast(j) && 0 <= p < |mem| - 3
      ensures c == Taken(old(c), p) && fasts == old(fasts)[j := old(fasts)[j][1..]]
      ensures Core() && FastOk(heads[j := mem[p + 2]])
    {
      hide Tiling, Coalesced, Tags, Rings, Lists, Sorted, BinSizes, Chains, FastLists;
      FastPop(mem, c, heads, fasts, j);
      p := heads[j];
      CoreKind(sz, mem, c, base, top, bins, p, Live);
      c := Taken(c, p);
      fasts := fasts[j := fasts[j][1..]];
    }

    /** Coalesces every chunk of fast list `j`, following the links from its head. */
    method DrainFastbin(j: nat)
      requires Core() && FastOk(fastbins) && j < |fasts|
      modifies this`mem, this`bins, this`top, this`c, this`fasts, this`fastbins
      ensures Core() && FastOk(fastbins) && fasts[j] == []
      ensures forall i | 0 <= i < |fasts| && i != j :: fasts[i] == old(fasts)[i]
      ensures Kept(old(mem), old(c), mem, c, -1)
      ensures Fewer(old(bins), bins)
    {
      hide Tiling, Coalesced, Tags, Rings, Lists, Sorted, BinSizes, Chains, FastLists, FastSizes, Kept;
      var p := fastbins[j];
      ghost var fasts0 := fasts;
      KeptRefl(mem, c, -1);
      ChainEmpty(mem, c, base, top, fastbins, fasts, j);
      assert fastbins[j := 0][j := p] == fastbins;
      fastbins := fastbins[j := 0];
      while p != 0
        invariant Core() && |fasts| == |fasts0| == |fastbins| && fastbins[j] == 0
        invariant FastOk(fastbins[j := p])
        invariant p == 0 <==> fasts[j] == []
        invariant forall i | 0 <= i < |fasts| && i != j :: fasts[i] == fasts0[i]
        invariant Kept(old(mem), old(c), mem, c, -1)
        invariant Fewer(old(bins), bins)
        decreases |fasts[j]|
      {
        ghost var m1, c1, t1 := mem, c, top;
        ghost var p' := PopFast(fastbins[j := p], j);
        var nextp := mem[p + 2];
        ghost var c2 := c;
        var size, _, _ := Coalesce(p);
        FastKept(sz, m1, mem, c2, c, base, t1, fastbins[j := p][j := nextp], fasts, RequestToSize(sz, 64), p);
        assert fastbins[j := p][j := nextp] == fastbins[j := nextp];
        KeptParked(m1, c1, mem, c, p);
        KeptTrans(old(mem), old(c), m1, c1, mem, c, -1);
        p := nextp;
        ChainEmpty(mem, c, base, top, fastbins[j := p], fasts, j);
      }
      assert fastbins[j := 0] == fastbins;
    }

    /** malloc_init_state: every bin header points to itself. */
    method InitState()
      requires maxFast == 0 && Zeroed()
      modifies this`mem, this`maxFast, this`top, this`bins, this`fasts
      ensures Ready() && top == BinAt(1) && c == map[] && maxFast == RequestToSize(sz, 64)
      ensures |mem| == old(|mem|) && brk == old(brk) && bins == NoLists(NBINS) && fasts == NoLists(NFastbins(sz))
    {
      hide Rings, Chains, FastLists, FastSizes, BinmapOk;
      LinkHeaders();
      maxFast := RequestToSize(sz, 64);
      top := BinAt(1);
      bins := NoLists(NBINS);
      fasts := NoLists(NFastbins(sz));
      DefaultMaxFast(sz);
      EmptyBins(mem);
      EmptyFasts(sz, mem, fastbins);
      EmptyBinmap(bins);
    }

    method LinkHeaders()
      requires |mem| >= ARENA
      modifies this`mem
      ensures |mem| == old(|mem|) && mem[BinAt(1) + 1] == old(mem)[BinAt(1) + 1]
      ensures forall j | 1 <= j < NBINS :: mem[BinAt(j) + 2] == BinAt(j) && mem[BinAt(j) + 3] == BinAt(j)
    {
      var i := 1;
      while i < NBINS
        invariant 1 <= i <= NBINS && |mem| == old(|mem|) && mem[BinAt(1) + 1] == old(mem)[BinAt(1) + 1]
        invariant forall j | 1 <= j < i :: mem[BinAt(j) + 2] == BinAt(j) && mem[BinAt(j) + 3] == BinAt(j)
      {
        mem := mem[BinAt(i) + 2 := BinAt(i)];
        mem := mem[BinAt(i) + 3 := BinAt(i)];
        i := i + 1;
      }
    }

    // ---------- __malloc_consolidate ----------

    /** Coalesces every chunk on a fast list; the first call initializes the state instead. */
    method Consolidate()
      requires Valid()
      modifies this
      ensures maxFast != 0 && Ready() && Kept(old(mem), old(c), mem, c, -1)
      ensures !HaveFast(maxFast) && forall a | a in c :: !c[a].kind.Fast?
      ensures HaveAny(maxFast) == old(HaveAny(maxFast)) && brk == old(brk) && base == old(base) && lastRemainder == old(lastRemainder)
      ensures old(maxFast) != 0 ==> (top == BinAt(1) <==> old(top) == BinAt(1))
      ensures old(maxFast) == 0 ==> top == BinAt(1) && Now() == Untouched(sz, old(base), old(brk), old(lastRemainder))
      ensures old(maxFast) != 0 && (forall a | a in old(c) :: !old(c)[a].kind.Fast?) ==> Now() == old(Now())
    {
      hide Tiling, Coalesced, Tags, Rings, Lists, Sorted, BinSizes, Chains, FastLists, FastSizes, Kept, BinmapOk, RequestToSize, NFastbins;
      DefaultMaxFast(sz);
      if maxFast != 0 {
        FlagUpdates(maxFast);
        maxFast := ClearFast(maxFast);
        DrainAll();
        NoFastLeft(sz, c, fasts, maxFast);
        BinmapFewer(binmap, old(bins), bins);
        KeptLength(old(mem), old(c), mem, c, -1);
        assert !HaveAny(maxFast) ==> forall a | a in old(c) :: old(c)[a].kind == Live;
      } else {
        InitState();
        KeptEmpty(old(mem), mem);
      }
    }

    method DrainAll()
      requires FastOk(fastbins) && (top == BinAt(1) ==> Unopened()) && (top != BinAt(1) ==> Core())
      requires MaxFast(maxFast) == RequestToSize(sz, 64)
      modifies this`mem, this`bins, this`top, this`c, this`fasts, this`fastbins
      ensures FastOk(fastbins) && (top == BinAt(1) ==> Unopened()) && (top != BinAt(1) ==> Core())
      ensures top == BinAt(1) <==> old(top) == BinAt(1)
      ensures forall j | 0 <= j <= FastbinIndex(maxFast) :: j < |fasts| ==> fasts[j] == []
      ensures Kept(old(mem), old(c), mem, c, -1) && Fewer(old(bins), bins)
      ensures (forall a | a in old(c) :: !old(c)[a].kind.Fast?) ==> c == old(c) && bins == old(bins) && top == old(top) && fasts == old(fasts)
    {
      hide Tiling, Coalesced, Tags, Rings, Lists, Sorted, BinSizes, Chains, FastLists, FastSizes, Kept, RequestToSize, NFastbins;
      KeptRefl(mem, c, -1);
      LastFastbin(sz, maxFast);
      var maxfb := FastbinIndex(maxFast);
      var fb := 0;
      while fb <= maxfb
        invariant 0 <= fb <= maxfb + 1
        invariant FastOk(fastbins) && (top == BinAt(1) ==> Unopened()) && (top != BinAt(1) ==> Core())
        invariant top == BinAt(1) <==> old(top) == BinAt(1)
        invariant forall j | 0 <= j < fb :: j < |fasts| ==> fasts[j] == []
        invariant Kept(old(mem), old(c), mem, c, -1) && Fewer(old(bins), bins)
        invariant (forall a | a in old(c) :: !old(c)[a].kind.Fast?) ==> c == old(c) && bins == old(bins) && top == old(top) && fasts == old(fasts)
      {
        ghost var m1, c1 := mem, c;
        HeadIsFast(mem, c, fastbins, fasts, fb);
        if top != BinAt(1) { TilingPositive(c, base, top); }
        if fastbins[fb] != 0 {
          DrainFastbin(fb);
          KeptTrans(old(mem), old(c), m1, c1, mem, c, -1);
        }
        fb := fb + 1;
      }
    }

    // ---------- __malloc_trim ----------

    /** Offers whole pages at the end of the top to the system, which takes back `give` words of
        them, all of them, or nothing. */
    method Trim(pad: nat, give: nat) returns (done: bool)
      requires Ready()
      modifies this`mem, this`brk
      ensures Ready() && Kept(old(mem), c, mem, c, -1)
      ensures !done ==> mem == old(mem) && brk == old(brk)
      ensures done ==> top != BinAt(1) && old(brk) - give <= brk < old(brk) && pad + MINWORDS < brk - top
      ensures top != BinAt(1) ==> forall w | Surplus(page, old(brk) - top, pad, w) ::
                brk == old(brk) - Min(give, w) && (done <==> 0 < Min(give, w))
    {
      hide Tiling, Coalesced, Tags, Rings, Lists, Sorted, BinSizes, Chains, FastLists, FastSizes, Kept, BinmapOk, RequestToSize, NFastbins, Surplus, TrimExtra;
      done := false;
      var topSize := SizeOf(mem[top + 1]);
      var extra := TrimExtra(page, topSize, pad);
      KeptRefl(mem, c, -1);
      TrimIsSurplus(page, topSize, pad);
      if extra > 0 {
        var released := if give < extra then give else extra;
        if released != 0 {
          TopWrite(sz, mem, c, base, top, bins, fastbins, fasts, RequestToSize(sz, 64), topSize, topSize - released);
          brk := brk - released;
          mem := mem[top + 1 := Head(topSize - released, true)];
          done := true;
        }
      }
    }

    // ---------- free ----------

    /** Parks a small chunk on its fast list. */
    method Park(p: int, size: int)
      requires Ready() && p in c && c[p].kind == Live && size == c[p].n && top != BinAt(1)
      requires Bytes(sz, size) <= RequestToSize(sz, 64)
      modifies this`mem, this`c, this`fasts, this`fastbins, this`maxFast
      ensures Ready() && top != BinAt(1) && maxFast != 0
      ensures Kept(old(mem), old(c), mem, c, p) && p in c && c[p].kind.Fast?
      ensures ParkedFirst(old(Now()), Now(), p, FastbinIndex(Bytes(sz, size)))
    {
      hide Tiling, Coalesced, Tags, Rings, Lists, Sorted, BinSizes, Chains, FastLists, FastSizes, Kept, BinmapOk, RequestToSize, NFastbins;
      FlagUpdates(maxFast);
      DefaultMaxFast(sz);
      ChunkBytes(sz, c, base, top, |mem|, p);
      var fb := FastbinIndex(Bytes(sz, size));
      FastPush(mem, c, base, top, fastbins, fasts, p, fb);
      FastSizesPark(sz, c, p, RequestToSize(sz, 64));
      ParkMemory(mem, c, base, top, bins, p, fastbins[fb]);
      KeptPark(mem, c, mem[p + 2 := fastbins[fb]], p, fb);
      CoreKind(sz, mem[p + 2 := fastbins[fb]], c, base, top, bins, p, Fast(fb));
      assert SameTag(mem, mem[p + 2 := fastbins[fb]], top);
      maxFast := SetFast(maxFast);
      mem := mem[p + 2 := fastbins[fb]];
      fastbins := fastbins[fb := p];
      fasts := fasts[fb := [p] + fasts[fb]];
      c := Parked(c, p, fb);
    }

    /** Frees a chunk too large for the fast lists. */
    method Release(p: int) returns (size: int, ghost lo: int, ghost hi: int)
      requires Ready() && top != BinAt(1) && p in c && c[p].kind == Live
      modifies this`mem, this`bins, this`top, this`c, this`maxFast
      ensures Ready() && top != BinAt(1) && maxFast != 0
      ensures Kept(old(mem), old(c), mem, c, p) && !(p in c && c[p].kind == Live)
      ensures Freed(old(Now()), Now(), p, lo, hi) && size == FreedSize(old(Now()), lo, hi)
    {
      hide Tiling, Coalesced, Tags, Rings, Lists, Sorted, BinSizes, Chains, FastLists, FastSizes, Kept, BinmapOk, RequestToSize, NFastbins, SameInside, Freed;
      FlagUpdates(maxFast);
      DefaultMaxFast(sz);
      maxFast := SetAny(maxFast);
      size, lo, hi := Coalesce(p);
      FastKept(sz, old(mem), mem, old(c), c, base, old(top), fastbins, fasts, RequestToSize(sz, 64), p);
      BinmapFewer(binmap, old(bins), bins);
      KeptSame(old(mem), old(c), mem, c, p);
      KeptLength(old(mem), old(c), mem, c, p);
      assert forall a | a in c && c[a].kind.Fast? :: a in old(c) && old(c)[a].kind.Fast?;
    }

    /** free: exactly the given chunk stops being in use; every other chunk in use keeps its
        address, its size and its contents. */
    method Free(m: int, give: nat) returns (ghost lo: int, ghost hi: int)
      requires Valid() && (m == 0 || (m - 2 in c && c[m - 2].kind == Live))
      modifies this
      ensures Valid()
      ensures m == 0 ==> mem == old(mem) && c == old(c)
      ensures m != 0 ==> Kept(old(mem), old(c), mem, c, m - 2) && !(m - 2 in c && c[m - 2].kind == Live)
      ensures m != 0 && old(maxFast) != 0 ==> maxFast != 0 && top != BinAt(1)
      ensures m == 0 ==> Now() == old(Now())
      ensures m != 0 ==> FreedBy(sz, page, topPad, trimThreshold, give, old(Now()), Now(), m - 2, lo, hi)
    {
      hide Tiling, Coalesced, Tags, Rings, Lists, Sorted, BinSizes, Chains, FastLists, FastSizes, Kept, BinmapOk, RequestToSize, NFastbins, ParkedFirst, Trimmed;
      if m == 0 { return 0, 0; }
      var p := m - 2;
      DefaultMaxFast(sz);
      ChunkBytes(sz, c, base, top, |mem|, p);
      NextChunk(mem, c, base, top, p);
      var size := SizeOf(mem[p + 1]);
      FlagsDoNotMatter(Bytes(sz, size), maxFast);
      if Bytes(sz, size) <= maxFast {
        Park(p, size);
        lo, hi := p, p;
      } else {
        size, lo, hi := Release(p);
        if Bytes(sz, size) >= FASTBIN_CONSOLIDATION_THRESHOLD {
          ghost var m1, c1 := mem, c;
          FreeLarge(p, give);
          KeptTrans(old(mem), old(c), m1, c1, mem, c, p);
        }
      }
    }

    /** Coalesces the parked chunks, if there are any. */
    method Sweep()
      requires Ready() && maxFast != 0 && top != BinAt(1)
      modifies this
      ensures Ready() && maxFast != 0 && top != BinAt(1) && Kept(old(mem), old(c), mem, c, -1)
      ensures Merged(old(c), c, base) && base == old(base) && brk == old(brk) && lastRemainder == old(lastRemainder)
    {
      hide Tiling, Coalesced, Tags, Rings, Lists, Sorted, BinSizes, FastOk, Unopened, BinmapOk, RequestToSize, Kept, Merged;
      KeptRefl(mem, c, -1);
      TilingPositive(c, base, top);
      if HaveFast(maxFast) {
        Consolidate();
        TilingPositive(c, base, top);
        KeptMerged(old(mem), old(c), mem, c, base, top);
      } else {
        MergedRefl(c, base, top);
      }
    }

    /** After freeing a large space: consolidate the fast lists, then trim the top. */
    method FreeLarge(ghost p: int, give: nat)
      requires Ready() && maxFast != 0 && top != BinAt(1) && !(p in c && c[p].kind == Live)
      modifies this
      ensures Ready() && maxFast != 0 && top != BinAt(1)
      ensures Kept(old(mem), old(c), mem, c, p) && !(p in c && c[p].kind == Live)
      ensures Merged(old(c), c, base) && base == old(base) && lastRemainder == old(lastRemainder)
      ensures Trimmed(sz, page, topPad, trimThreshold, give, top, old(brk), brk)
    {
      hide Core, FastOk, Unopened, BinmapOk, RequestToSize, Kept, Merged, Surplus;
      Positive();
      Sweep();
      ghost var m1, c1 := mem, c;
      Positive();
      TopSize();
      KeptRefl(mem, c, -1);
      if Bytes(sz, SizeOf(mem[top + 1])) >= trimThreshold {
        var done := Trim(topPad, give);
      }
      KeptTrans(old(mem), old(c), m1, c1, mem, c, -1);
      KeptWeaken(old(mem), old(c), mem, c, p);
    }

    // ---------- taking a free chunk ----------

    /** Takes the free chunk `v` off its list and marks it in use, whole. */
    method TakeWhole(v: int, ghost k: int)
      requires Core() && v in c && c[v].kind.Binned? && 1 <= c[v].kind.bin < NBINS
      requires 0 <= k < |bins[c[v].kind.bin]| && bins[c[v].kind.bin][k] == v
      modifies this`mem, this`bins, this`c
      ensures Core() && c == Taken(old(c), v) && bins == old(bins)[old(c)[v].kind.bin := Without(old(bins)[old(c)[v].kind.bin], k)]
      ensures SameInside(old(mem), mem, old(c), -1)
    {
      hide Tiling, Coalesced, Rings, Lists, Sorted, BinSizes, SameInside;
      ghost var m0 := mem;
      NextChunk(mem, c, base, top, v);
      SortedWithout(c, bins, c[v].kind.bin, k);
      Unlink(v, c, c[v].kind.bin, k);
      ghost var m1 := mem;
      TakenMemory(m0, m1, c, base, top, bins, v);
      var size := SizeOf(mem[v + 1]);
      mem := mem[v + size + 1 := SetPinuse(mem[v + size + 1])];
      TakenAbstract(sz, c, base, top, bins, v);
      c := Taken(c, v);
    }

    /** Takes the free chunk `v` off its list, keeps its first `nb` words in use and makes the
        rest the only chunk on the unsorted list. */
    method TakeSplit(v: int, nb: int, ghost k: int) returns (remainder: int)
      requires Core() && v in c && c[v].kind.Binned? && 1 <= c[v].kind.bin < NBINS
      requires 0 <= k < |bins[c[v].kind.bin]| && bins[c[v].kind.bin][k] == v
      requires nb % 2 == 0 && MINWORDS <= nb && nb + MINWORDS <= c[v].n
      requires c[v].kind.bin == 1 ==> |bins[1]| == 1
      requires c[v].kind.bin != 1 ==> bins[1] == []
      modifies this`mem, this`bins, this`c
      ensures remainder == v + nb
      ensures Core() && c == Split(old(c), v, nb) && Fewer(old(bins), bins) && bins[1] == [remainder]
      ensures SameInside(old(mem), mem, old(c), -1)
    {
      hide Tiling, Coalesced, Tags, Rings, Lists, Sorted, BinSizes, SameInside, SameTags;
      ghost var m0 := mem;
      NextChunk(mem, c, base, top, v);
      SortedWithout(c, bins, c[v].kind.bin, k);
      var remainderSize := SizeOf(mem[v + 1]) - nb;
      remainder := v + nb;
      Unlink(v, c, c[v].kind.bin, k);
      ghost var m1, d, bins1 := mem, Halved(c, v, nb), bins;
      HalvedLists(c, base, top, bins, v, nb);
      Link(remainder, BinAt(1), BinAt(1), d, 1, 0);
      ghost var m2 := mem;
      HalvedListed(c, base, top, v, nb);
      SplitMemory(m0, m1, m2, c, base, top, bins, v, nb);
      mem := mem[v + 1 := Head(nb, true)];
      mem := mem[remainder + 1 := Head(remainderSize, true)];
      mem := mem[remainder + remainderSize := remainderSize];
      SplitAbstract(sz, c, base, top, bins1, bins, v, nb);
      c := Split(c, v, nb);
    }

    // ---------- sorting the unsorted list into the bins ----------

    /** Where a chunk of `size` words goes in bin `vi`: in front of a small bin, in size order
        in a large one. */
    method FindPlace(size: int, vi: int, ghost d: Chunks) returns (bck: int, fwd: int, ghost k: int)
      requires Rings(mem, bins) && Lists(d, bins) && Sorted(d, bins) && 2 <= vi < NBINS && ListHeads(mem, d, bins[vi])
      requires vi >= NSMALLBINS <==> Bytes(sz, size) >= MIN_LARGE_SIZE
      ensures 0 <= k <= |bins[vi]|
      ensures fwd == (if k < |bins[vi]| then bins[vi][k] else BinAt(vi))
      ensures bck == (if k > 0 then bins[vi][k - 1] else BinAt(vi))
      ensures vi >= NSMALLBINS ==> FitsAt(d, bins[vi], k, size)
      ensures PlaceOf(d, bins[vi], k, vi, size)
    {
      hide Lists;
      ghost var s := bins[vi];
      assert Ring(mem, BinAt(vi), s);
      assert s != [] ==> NodeOk(mem, BinAt(vi), s, 0);
      bck := BinAt(vi);
      fwd := mem[bck + 2];
      k := 0;
      if Bytes(sz, size) >= MIN_LARGE_SIZE && fwd != bck {
        assert s != [];
        assert Descending(d, s);
        var last := mem[bck + 3];
        assert last == s[|s| - 1];
        if Head(size, false) < mem[last + 1] {
          fwd := bck;
          bck := last;
          k := |s|;
        } else {
          assert fwd == s[0];
          while Head(size, true) < mem[fwd + 1]
            invariant 0 <= k < |s| && fwd == s[k]
            invariant forall j | 0 <= j < k :: d[s[j]].n > size
            decreases |s| - k
          {
            assert NodeOk(mem, BinAt(vi), s, k);
            fwd := mem[fwd + 2];
            k := k + 1;
          }
          assert NodeOk(mem, BinAt(vi), s, k);
          bck := mem[fwd + 3];
        }
      }
    }

    /** Moves the last chunk of the unsorted list to its bin. */
    method BinLast(victim: int) returns (ghost k: int)
      requires Core() && BinmapOk(binmap, bins) && bins[1] != [] && victim == bins[1][|bins[1]| - 1]
      requires 0 <= Bytes(sz, |mem|) <= TWO32
      modifies this`mem, this`bins, this`c, this`binmap
      ensures Core() && BinmapOk(binmap, bins) && SameInside(old(mem), mem, old(c), -1)
      ensures bins[1] == old(bins)[1][..|old(bins)[1]| - 1]
      ensures victim in old(c) && exists i: nat | i >= 2 :: c == Listed(old(c), victim, i)
      ensures SortedIn(sz, old(Now()), Now(), victim, k)
    {
      hide Tiling, Coalesced, Tags, Rings, Lists, Sorted, BinSizes, SameInside, SameTags, BinmapOk, HeadOk, BinIndex, With, FitsAt, PlaceOf, SortedIn, ListHeads, MarkBin;
      ghost var m0, kk := mem, |bins[1]| - 1;
      LastUnsorted(c, bins);
      BinmapShape(binmap, bins);
      ChunkBytes(sz, c, base, top, |mem|, victim);
      NextChunk(mem, c, base, top, victim);
      var size := SizeOf(mem[victim + 1]);
      BinIndexRange(Bytes(sz, size));
      SortedWithout(c, bins, 1, kk);
      Unlink(victim, c, 1, kk);
      ghost var m1, d, bins1 := mem, Taken(c, victim), bins;
      TakenAbstract(sz, c, base, top, bins, victim);
      var vi := BinIndex(Bytes(sz, size));
      HeadsOfList(m0, m1, c, d, base, top, bins, vi);
      var bck, fwd;
      bck, fwd, k := FindPlace(size, vi, d);
      binmap := MarkBin(binmap, vi);
      Link(victim, bck, fwd, d, vi, k);
      SameMove(m0, m1, mem, c, base, top, victim);
      MovedAbstract(sz, m0, mem, c, base, top, bins1, vi, k, victim);
      BinmapMark(old(binmap), old(bins), bins, vi);
      c := Listed(c, victim, vi);
      assert vi >= 2 && c == Listed(old(c), victim, vi);
      InItsBin(sz, old(Now()), Now(), victim, vi, k);
    }

    // ---------- malloc ----------

    /** Initialized, with a top chunk. */
    ghost predicate Open()
      reads this`mem, this`brk, this`top, this`base, this`c, this`bins, this`fasts, this`maxFast, this`fastbins, this`binmap
    {
      Ready() && top != BinAt(1) && maxFast != 0
    }

    /** Takes the free chunk `v`, whole if the rest would be too small to be a chunk. */
    method Take(v: int, nb: int, ghost k: int) returns (remainder: int)
      requires Open() && v in c && c[v].kind.Binned? && 1 <= c[v].kind.bin < NBINS
      requires 0 <= k < |bins[c[v].kind.bin]| && bins[c[v].kind.bin][k] == v
      requires nb % 2 == 0 && MINWORDS <= nb <= c[v].n
      requires nb + MINWORDS <= c[v].n ==> (if c[v].kind.bin == 1 then |bins[1]| == 1 else bins[1] == [])
      modifies this`mem, this`bins, this`c
      ensures Open() && Granted(old(c), c, v, nb) && Kept(old(mem), old(c), mem, c, v)
      ensures c == Portion(old(c), v, nb)
      ensures old(c)[v].n < nb + MINWORDS ==> remainder == 0 && bins == old(bins)[old(c)[v].kind.bin := Without(old(bins)[old(c)[v].kind.bin], k)]
      ensures old(c)[v].n >= nb + MINWORDS ==> remainder == v + nb != 0 && bins[1] == [remainder]
      ensures old(bins)[1] == [] ==> PortionTaken(old(Now()), Now(), v, nb)
    {
      hide Tiling, Coalesced, Tags, Rings, Lists, Sorted, BinSizes, Chains, FastLists, FastSizes, Kept, BinmapOk, RequestToSize, NFastbins, SameInside;
      NextChunk(mem, c, base, top, v);
      TilingPositive(c, base, top);
      assert HaveAny(maxFast);
      var size := SizeOf(mem[v + 1]);
      if size - nb < MINWORDS {
        TakeWhole(v, k);
        TakenGranted(old(mem), mem, old(c), base, top, v, nb);
        remainder := 0;
      } else {
        remainder := TakeSplit(v, nb, k);
        SplitGranted(old(mem), mem, old(c), base, top, v, nb);
      }
      FastKept(sz, old(mem), mem, old(c), c, base, top, fastbins, fasts, RequestToSize(sz, 64), -1);
      BinmapFewer(binmap, old(bins), bins);
      KeptLength(old(mem), old(c), mem, c, v);
    }

    /** Takes the most recently parked chunk of the right size, if there is one; 0 if not. */
    method TakeFast(nb: int) returns (p: int)
      requires Open() && nb % 2 == 0 && MINWORDS <= nb && Bytes(sz, nb) <= RequestToSize(sz, 64)
      modifies this`c, this`fasts, this`fastbins
      ensures Open()
      ensures p == 0 ==> c == old(c) && forall a | a in c && c[a].kind.Fast? :: c[a].n != nb
      ensures p != 0 ==> Granted(old(c), c, p, nb) && Kept(mem, old(c), mem, c, p) && Chosen(FromFast, old(c), p, nb)
      ensures p == 0 ==> !FastHit(sz, old(Now()), nb) && Now() == old(Now())
      ensures p != 0 ==> FastHit(sz, old(Now()), nb) && FastTaken(sz, old(Now()), Now(), p, nb)
    {
      hide Tiling, Coalesced, Tags, Rings, Lists, Sorted, BinSizes, Chains, FastLists, FastSizes, Kept, BinmapOk, RequestToSize, NFastbins;
      DefaultMaxFast(sz);
      var fb := FastbinIndex(Bytes(sz, nb));
      p := fastbins[fb];
      ChainEmpty(mem, c, base, top, fastbins, fasts, fb);
      if p == 0 {
        NoFastExact(sz, c, base, top, |mem|, fasts, nb, RequestToSize(sz, 64));
      } else {
        ghost var heads := fastbins;
        ghost var q := PopFast(fastbins, fb);
        fastbins := fastbins[fb := mem[p + 2]];
        FastExact(sz, old(c), base, top, |mem|, p, nb, RequestToSize(sz, 64));
        FastGranted(mem, old(c), p, nb);
      }
    }

    /** Takes the oldest chunk of the small bin of exactly this size, if there is one; 0 if not. */
    method TakeSmall(nb: int) returns (victim: int)
      requires Open() && nb % 2 == 0 && MINWORDS <= nb && Bytes(sz, nb) < MIN_LARGE_SIZE
      modifies this`mem, this`bins, this`c
      ensures Open()
      ensures victim == 0 ==> c == old(c) && mem == old(mem) && bins == old(bins) && bins[Bytes(sz, nb) / 8] == []
      ensures victim != 0 ==> Granted(old(c), c, victim, nb) && Kept(old(mem), old(c), mem, c, victim)
      ensures victim != 0 ==> Chosen(FromBin, old(c), victim, nb)
      ensures victim == 0 ==> !SortedHit(sz, old(Now()), nb) && Now() == old(Now())
      ensures victim != 0 ==> SortedHit(sz, old(Now()), nb) && SortedTaken(sz, old(Now()), Now(), victim, nb)
    {
      hide Tiling, Coalesced, Tags, Lists, Sorted, BinSizes, Chains, FastLists, FastSizes, Kept, BinmapOk, RequestToSize, NFastbins;
      var idx := Bytes(sz, nb) / 8;
      var bin := BinAt(idx);
      assert Ring(mem, bin, bins[idx]);
      victim := mem[bin + 3];
      if victim != bin {
        assert bins[idx] != [];
        ghost var k := |bins[idx]| - 1;
        LastListed(c, base, top, bins, idx);
        SmallBinExact(sz, c, base, top, |mem|, victim, nb);
        BytesMin(sz, nb);
        assert Without(bins[idx], k) == bins[idx][..k];
        var remainder := Take(victim, nb, k);
      } else {
        EmptyRing(mem, bin, bins[idx]);
        victim := 0;
        NoneExact(nb);
      }
    }

    /** The same, of the whole heap. */
    method SortOne(victim: int) returns (ghost k: int)
      requires Open() && bins[1] != [] && victim == bins[1][|bins[1]| - 1]
      modifies this`mem, this`bins, this`c, this`binmap
      ensures Open() && bins[1] == old(bins)[1][..|old(bins)[1]| - 1]
      ensures victim in old(c) && exists i: nat | i >= 2 :: c == Listed(old(c), victim, i)
      ensures Relisted(old(c), c) && Kept(old(mem), old(c), mem, c, -1)
      ensures SortedIn(sz, old(Now()), Now(), victim, k)
    {
      hide Tiling, Coalesced, Tags, Rings, Lists, Sorted, BinSizes, Chains, FastLists, FastSizes, Kept, BinmapOk, RequestToSize, NFastbins, SameInside, SortedIn;
      TilingPositive(c, base, top);
      LastUnsorted(c, bins);
      k := BinLast(victim);
      ghost var i: nat :| i >= 2 && c == Listed(old(c), victim, i);
      ListedRelisted(old(c), victim, i);
      RelistedKept(old(mem), mem, old(c), c);
      KeptLength(old(mem), old(c), mem, c, -1);
      FastKept(sz, old(mem), mem, old(c), c, base, top, fastbins, fasts, RequestToSize(sz, 64), -1);
    }

    /** While the unsorted list of `s` is gone through, for a request of `nb` words: the chunks behind those still on
        it are in their bins, and none of them has the size. */
    ghost predicate Sifting(s: Stage, m0: seq<int>, nb: int)
      reads this`mem, this`brk, this`top, this`base, this`c, this`bins, this`fasts, this`maxFast, this`fastbins, this`binmap, this`lastRemainder
    {
      && Open() && |bins| == NBINS && Relisted(s.c, c) && Kept(m0, s.c, mem, c, -1)
      && SameBounds(s, Now()) && lastRemainder == s.last && (forall a | a in s.c :: 0 <= a)
      && (Bytes(sz, nb) < MIN_LARGE_SIZE ==> NoExact(c, nb))
      && |s.bins| == NBINS && bins[1] <= s.bins[1] && NoneFrom(s, |bins[1]|, nb)
      && (bins[1] == [] ==> !RemainderHit(sz, s, nb))
    }

    /** The last remainder, if it is all that is left. */
    method TakeRemainder(victim: int, nb: int, ghost s: Stage, ghost m0: seq<int>)
      requires Sifting(s, m0, nb) && nb % 2 == 0 && MINWORDS <= nb && Bytes(sz, nb) < MIN_LARGE_SIZE
      requires |bins[1]| == 1 && victim == bins[1][0] == lastRemainder && victim in c && nb + MINWORDS < c[victim].n
      modifies this`mem, this`bins, this`c, this`lastRemainder
      ensures Open() && Granted(s.c, c, victim, nb) && Kept(m0, s.c, mem, c, victim) && Chosen(FromRemainder, old(c), victim, nb)
      ensures !UnsortedHit(s, nb) && RemainderHit(sz, s, nb) && RemainderTaken(s, Now(), old(c), victim, nb)
    {
      hide Core, Unopened, FastOk, Kept, BinmapOk, RequestToSize, NoExact, Relisted, Chosen, Granted, UnsortedHit, RemainderHit, ExactAt, Taken, Split, NoneFrom;
      Unsorted();
      Positive();
      OnlyUnsorted(nb);
      SizeOfUnsorted(s, c, bins, 0, nb);
      RemainderIs(sz, s, victim, nb);
      NoneExactFrom(s, 0, nb);
      ghost var m1, c1 := mem, c;
      lastRemainder := Take(victim, nb, 0);
      Unsorted();
      GrantedTrans(m0, s.c, m1, c1, mem, c, victim, nb);
    }

    /** A chunk of exactly the size. */
    method TakeExact(victim: int, nb: int, ghost s: Stage, ghost m0: seq<int>)
      requires Sifting(s, m0, nb) && nb % 2 == 0 && MINWORDS <= nb
      requires bins[1] != [] && victim == bins[1][|bins[1]| - 1] && victim in c && c[victim].n == nb
      modifies this`mem, this`bins, this`c
      ensures Open() && Granted(s.c, c, victim, nb) && Kept(m0, s.c, mem, c, victim) && Chosen(FromBin, old(c), victim, nb)
      ensures UnsortedHit(s, nb) && OldestTaken(s, Now(), old(c), victim, nb)
    {
      hide Core, Unopened, FastOk, Kept, BinmapOk, RequestToSize, NoExact, Relisted, Chosen, Granted, UnsortedHit, RemainderHit, ExactAt, Taken, Split, NoneFrom;
      ghost var m1, c1, k := mem, c, |bins[1]| - 1;
      Unsorted();
      Positive();
      SizeOfUnsorted(s, c, bins, k, nb);
      ExactIsBest(c, victim, nb);
      ExactFound(s, k, nb);
      assert Without(bins[1], k) == s.bins[1][..k];
      var _ := Take(victim, nb, k);
      GrantedTrans(m0, s.c, m1, c1, mem, c, victim, nb);
      assert UnsortedTaken(s, Now(), c1, victim, k, nb);
    }

    /** A chunk of another size goes to its bin. */
    method SortAside(victim: int, nb: int, ghost s: Stage, ghost m0: seq<int>)
      requires Sifting(s, m0, nb) && bins[1] != [] && victim == bins[1][|bins[1]| - 1] && victim in c && c[victim].n != nb
      requires |bins[1]| == 1 ==> !(Bytes(sz, nb) < MIN_LARGE_SIZE && victim == lastRemainder && nb + MINWORDS < c[victim].n)
      modifies this`mem, this`bins, this`c, this`binmap
      ensures Sifting(s, m0, nb) && |bins[1]| < |old(bins)[1]|
    {
      hide Core, Unopened, FastOk, Kept, BinmapOk, RequestToSize, NoExact, Relisted, UnsortedHit, RemainderHit, ExactAt, NoneFrom, SortedIn;
      ghost var m1, c1, k := mem, c, |bins[1]| - 1;
      Positive();
      SizeOfUnsorted(s, c, bins, k, nb);
      if k == 0 { NotRemainder(sz, s, nb); }
      NoneExactFrom(s, k, nb);
      var _ := SortOne(victim);
      Unsorted();
      ghost var i: nat :| i >= 2 && c == Listed(c1, victim, i);
      if Bytes(sz, nb) < MIN_LARGE_SIZE { ListedNoExact(c1, victim, i, nb); }
      RelistedTrans(s.c, c1, c);
      KeptTrans(m0, s.c, m1, c1, mem, c, -1);
    }

    /** Goes through the unsorted list from its old end: takes an exact fit, or the last
        remainder if it is all there is; sorts every other chunk into its bin. */
    method SortUnsorted(nb: int) returns (p: int, ghost origin: Origin, ghost mid: Chunks)
      requires Open() && nb % 2 == 0 && MINWORDS <= nb
      requires Bytes(sz, nb) < MIN_LARGE_SIZE ==> bins[Bytes(sz, nb) / 8] == []
      modifies this`mem, this`bins, this`c, this`binmap, this`lastRemainder
      ensures Open()
      ensures p == 0 ==> bins[1] == [] && Relisted(old(c), c) && Kept(old(mem), old(c), mem, c, -1)
      ensures p == 0 && Bytes(sz, nb) < MIN_LARGE_SIZE ==> NoExact(c, nb)
      ensures p != 0 ==> Granted(old(c), c, p, nb) && Kept(old(mem), old(c), mem, c, p)
      ensures p != 0 ==> Relisted(old(c), mid) && Chosen(origin, mid, p, nb) && (origin.FromBin? || origin.FromRemainder?)
      ensures p != 0 && origin.FromRemainder? ==> p == old(lastRemainder) && !Large(nb)
      ensures p == 0 ==> lastRemainder == old(lastRemainder)
      ensures p == 0 ==> !UnsortedHit(old(Now()), nb) && !RemainderHit(sz, old(Now()), nb)
      ensures p != 0 && origin.FromBin? ==> UnsortedHit(old(Now()), nb) && OldestTaken(old(Now()), Now(), mid, p, nb)
      ensures p != 0 && origin.FromRemainder? ==>
                !UnsortedHit(old(Now()), nb) && RemainderHit(sz, old(Now()), nb) && RemainderTaken(old(Now()), Now(), mid, p, nb)
    {
      hide Core, Unopened, FastOk, Kept, BinmapOk, RequestToSize, NoExact, Relisted, Chosen, Granted, UnsortedHit, RemainderHit, ExactAt, Taken, Split, OldestTaken, NoneFrom;
      var small := Bytes(sz, nb) < MIN_LARGE_SIZE;
      if small { NoneExact(nb); }
      KeptRefl(mem, c, -1);
      RelistedRefl(c);
      Positive();
      origin, mid := Nowhere, c;
      Unsorted();
      ghost var s := Now();
      AllUnsorted(s);
      var victim := mem[BinAt(1) + 3];
      while victim != BinAt(1)
        invariant Sifting(s, old(mem), nb) && |mem| >= ARENA && victim == mem[BinAt(1) + 3] && (victim == BinAt(1) <==> bins[1] == [])
        decreases |bins[1]|
      {
        Unsorted();
        mid := c;
        var bck := mem[victim + 3];
        var size := SizeOf(mem[victim + 1]);
        if small && bck == BinAt(1) && victim == lastRemainder && size > nb + MINWORDS {
          TakeRemainder(victim, nb, s, old(mem));
          return victim, FromRemainder, mid;
        }
        if size == nb {
          TakeExact(victim, nb, s, old(mem));
          return victim, FromBin, mid;
        }
        SortAside(victim, nb, s, old(mem));
        Unsorted();
        Positive();
        victim := mem[BinAt(1) + 3];
      }
      p := 0;
      NoneIsNoHit(s, nb);
    }

    lemma NoneExact(nb: int)
      requires Open() && nb % 2 == 0 && MINWORDS <= nb && Bytes(sz, nb) < MIN_LARGE_SIZE && bins[Bytes(sz, nb) / 8] == []
      ensures NoExact(c, nb)
    {
      SmallBinEmpty(sz, c, base, top, |mem|, bins, nb);
    }

    /** The old end of the unsorted list, as the links and tags give it. */
    lemma Unsorted()
      requires Open()
      ensures |bins| == NBINS && |mem| >= ARENA
      ensures mem[BinAt(1) + 3] == if bins[1] == [] then BinAt(1) else bins[1][|bins[1]| - 1]
      ensures bins[1] != [] ==>
                var k := |bins[1]| - 1; var v := bins[1][k];
                && v in c && c[v].kind == Binned(1) && ARENA <= v < |mem| - 3 && SizeOf(mem[v + 1]) == c[v].n
                && (mem[v + 3] == BinAt(1) <==> k == 0)
    {
      hide Tiling, Coalesced, Sorted, BinSizes, FastOk, BinmapOk, RequestToSize;
      HeaderOf(mem, bins, 1);
      if bins[1] != [] {
        var k := |bins[1]| - 1;
        NodeInList(mem, c, base, top, bins, 1, k);
        NodeInList(mem, c, base, top, bins, 1, k - 1);
        assert HeadOk(mem, c, bins[1][k]);
      }
    }

    lemma OnlyUnsorted(nb: int)
      requires Open() && |bins[1]| == 1 && bins[1][0] in c && nb + MINWORDS < c[bins[1][0]].n && NoExact(c, nb)
      ensures Chosen(FromRemainder, c, bins[1][0], nb)
    {
      LastUnsorted(c, bins);
      RemainderChosen(c, bins, bins[1][0], nb);
    }

    /** Looks for a fit in the bin of a large request, smallest chunk first. */
    method ScanLargebin(nb: int) returns (victim: int)
      requires Open() && nb % 2 == 0 && MINWORDS <= nb && MIN_LARGE_SIZE <= Bytes(sz, nb) && SearchFits(Bytes(sz, nb)) && bins[1] == []
      modifies this`mem, this`bins, this`c
      ensures Open()
      ensures victim == 0 ==> c == old(c) && mem == old(mem) && bins == old(bins) && NoFitUpTo(c, nb, BinIndex(Bytes(sz, nb)))
      ensures victim != 0 ==> Granted(old(c), c, victim, nb) && Kept(old(mem), old(c), mem, c, victim)
      ensures victim != 0 ==> Chosen(FromBin, old(c), victim, nb)
      ensures victim != 0 ==> PortionTaken(old(Now()), Now(), victim, nb) && LastFit(old(Now()), victim, nb)
    {
      hide Tiling, Coalesced, Tags, Lists, Sorted, BinSizes, Chains, FastLists, FastSizes, Kept, BinmapOk, RequestToSize, NFastbins, SameInside, Chosen, Granted, BinIndex, Portion, PortionTaken, Without, LastFit;
      if Bytes(sz, nb) < TWO32 { BinIndexRange(Bytes(sz, nb)); }
      NoUnsorted(c, bins);
      var idx := BinIndex(Bytes(sz, nb));
      ghost var s, k := bins[idx], |bins[idx]| - 1;
      var bin := BinAt(idx);
      assert Ring(mem, bin, s);
      victim := mem[bin + 3];
      while victim != bin
        invariant Open() && mem == old(mem) && c == old(c) && bins == old(bins)
        invariant -1 <= k < |s| && victim == (if k < 0 then bin else s[k])
        invariant TailTooSmall(c, s, k + 1, nb)
        decreases k
      {
        NodeInList(mem, c, base, top, bins, idx, k);
        NextChunk(mem, c, base, top, victim);
        var size := SizeOf(mem[victim + 1]);
        if size >= nb {
          ChunkBytes(sz, c, base, top, |mem|, victim);
          LargeFinds(sz, c, base, top, |mem|, bins, idx, k, nb);
          LastFits(Now(), idx, k, nb);
          var remainder := Take(victim, nb, k);
          return;
        }
        victim := mem[victim + 3];
        k := k - 1;
      }
      NodeInList(mem, c, base, top, bins, idx, k);
      victim := 0;
      LargeNoFit(sz, c, base, top, |mem|, bins, idx, nb);
    }

    /** The bitmap search: the first nonempty bin from `idx` on, or NBINS.  Bits found set for
        empty bins are cleared on the way. */
    method NextNonempty(idx: int, ghost nb: int) returns (i: int)
      requires Lists(c, bins) && Rings(mem, bins) && BinmapOk(binmap, bins) && 2 <= idx <= NBINS && NoFitUpTo(c, nb, idx - 1)
      modifies this`binmap
      ensures BinmapOk(binmap, bins) && idx <= i <= NBINS && NoFitUpTo(c, nb, i - 1)
      ensures i < NBINS ==> bins[i] != []
    {
      hide Lists, Pow2, GetBit, Marked, NoFitUpTo, Ring;
      BinmapShape(binmap, bins);
      var block, pos := idx / 32, idx % 32;
      var word := binmap[block];
      while true
        invariant BinmapOk(binmap, bins) && |binmap| == 4 && 0 <= block < 4 && 0 <= pos <= 32 && word == binmap[block]
        invariant block == 3 ==> pos == 0
        invariant 2 <= idx <= 32 * block + pos && NoFitUpTo(c, nb, 32 * block + pos - 1)
        decreases 4 - block, 33 - pos
      {
        if pos == 32 || Bit(pos) > word {
          PassWord(block, pos, nb);
          block := SkipBlocks(block + 1, nb);
          if block >= BINMAPSIZE {
            return NBINS;
          }
          word, pos := binmap[block], 0;
          FirstBit(word);
        }
        pos := SetBitFrom(word, pos, block, nb);
        i := 32 * block + pos;
        var bin := BinAt(i);
        HeaderOf(mem, bins, i);
        var victim := mem[bin + 3];
        if victim != bin {
          return;
        }
        BinmapClear(binmap, bins, i);
        EmptyBinsNoFit(c, bins, nb, i, i + 1);
        word := ClearBit(word, pos);
        binmap := binmap[block := word];
        pos := pos + 1;
      }
    }

    lemma PassWord(block: int, pos: int, nb: int)
      requires Lists(c, bins) && BinmapOk(binmap, bins) && 0 <= block < 4 && 0 <= pos <= 32 && 2 <= 32 * block + pos
      requires block == 3 ==> pos == 0
      requires pos == 32 || Bit(pos) > binmap[block]
      requires NoFitUpTo(c, nb, 32 * block + pos - 1)
      ensures NoFitUpTo(c, nb, if block < 3 then 32 * block + 31 else 95)
    {
      if block < BINMAPSIZE {
        SkipWord(binmap, bins, block, pos);
        EmptyBinsNoFit(c, bins, nb, 32 * block + pos, 32 * block + 32);
      }
    }

    /** Skips the words in which no bit is set. */
    method SkipBlocks(from: int, ghost nb: int) returns (block: int)
      requires Lists(c, bins) && BinmapOk(binmap, bins) && 1 <= from <= 4
      requires NoFitUpTo(c, nb, if from < 4 then 32 * from - 1 else 95)
      ensures from <= block <= 4 && (block < BINMAPSIZE ==> binmap[block] != 0)
      ensures NoFitUpTo(c, nb, if block < 4 then 32 * block - 1 else 95)
    {
      hide Lists, NoFitUpTo;
      block := from;
      while block < BINMAPSIZE && binmap[block] == 0
        invariant from <= block <= 4 && NoFitUpTo(c, nb, if block < 4 then 32 * block - 1 else 95)
        decreases 4 - block
      {
        SkipZero(binmap, bins, block);
        EmptyBinsNoFit(c, bins, nb, 32 * block, 32 * block + 32);
        block := block + 1;
      }
    }

    /** Advances to a set bit of the word; there is one. */
    method SetBitFrom(word: nat, start: int, ghost block: int, ghost nb: int) returns (pos: int)
      requires Lists(c, bins) && BinmapOk(binmap, bins) && 0 <= block < BINMAPSIZE && word == binmap[block]
      requires 0 <= start < 32 && Bit(start) <= word && NoFitUpTo(c, nb, 32 * block + start - 1)
      requires 2 <= 32 * block + start
      ensures start <= pos < 32 && GetBit(word, pos) && NoFitUpTo(c, nb, 32 * block + pos - 1)
    {
      hide Lists, Pow2, GetBit, NoFitUpTo;
      pos := start;
      ghost var j := SomeBitAbove(word, start, 32);
      while !GetBit(word, pos)
        invariant start <= pos <= j && NoFitUpTo(c, nb, 32 * block + pos - 1)
        decreases j - pos
      {
        SkipBit(binmap, bins, block, pos);
        EmptyBinsNoFit(c, bins, nb, 32 * block + pos, 32 * block + pos + 1);
        pos := pos + 1;
      }
    }

    /** Takes the smallest chunk of the first nonempty bin past that of the request. */
    method ScanBins(idx: int, nb: int) returns (victim: int)
      requires Open() && nb % 2 == 0 && MINWORDS <= nb && SearchFits(Bytes(sz, nb)) && bins[1] == []
      requires idx == BinIndex(Bytes(sz, nb)) + 1 && NoFitUpTo(c, nb, idx - 1)
      modifies this`mem, this`bins, this`c, this`binmap, this`lastRemainder
      ensures Open()
      ensures victim == 0 ==> c == old(c) && mem == old(mem) && bins == old(bins) && lastRemainder == old(lastRemainder) && NoFit(c, nb)
      ensures victim != 0 ==> Granted(old(c), c, victim, nb) && Kept(old(mem), old(c), mem, c, victim)
      ensures victim != 0 ==> Chosen(FromBin, old(c), victim, nb)
      ensures victim != 0 ==> PortionTaken(old(Now()), Now(), victim, nb) && LastFit(old(Now()), victim, nb)
      ensures victim != 0 ==> lastRemainder == if old(c)[victim].n < nb + MINWORDS || Large(nb) then old(lastRemainder) else victim + nb
    {
      hide Tiling, Coalesced, Tags, Lists, Sorted, BinSizes, Chains, FastLists, FastSizes, Kept, BinmapOk, RequestToSize, NFastbins, SameInside, Chosen, Granted, BinIndex, NoFitUpTo, Rings, Portion, Without, LastFit;
      BytesMin(sz, nb);
      if Bytes(sz, nb) < TWO32 { BinIndexRange(Bytes(sz, nb)); }
      NoUnsorted(c, bins);
      var i := NextNonempty(idx, nb);
      if i < NBINS {
        ScanFinds(sz, c, base, top, |mem|, bins, i, nb);
        HeaderOf(mem, bins, i);
        LastListed(c, base, top, bins, i);
        victim := mem[BinAt(i) + 3];
        LastFits(Now(), i, |bins[i]| - 1, nb);
        var remainder := Take(victim, nb, |bins[i]| - 1);
        if remainder != 0 && Bytes(sz, nb) < MIN_LARGE_SIZE {
          lastRemainder := remainder;
        }
      } else {
        AllBinsNoFit(c, bins, nb, i);
        victim := 0;
      }
    }

    /** Splits `nb` words off the top. */
    method SplitTop(nb: int) returns (p: int)
      requires Open() && nb % 2 == 0 && MINWORDS <= nb && nb + MINWORDS <= brk - top
      modifies this`mem, this`c, this`top
      ensures Open() && p == old(top) && Granted(old(c), c, p, nb) && Kept(old(mem), old(c), mem, c, p)
      ensures c == Carved(old(c), p, nb) && top == p + nb
    {
      hide Tiling, Coalesced, Tags, Rings, Lists, Sorted, BinSizes, Chains, FastLists, FastSizes, Kept, BinmapOk, RequestToSize, NFastbins, SameInside, Granted;
      TilingPositive(c, base, top);
      TopParity(c, base, top);
      p := top;
      var size := SizeOf(mem[p + 1]);
      CarvedMemory(mem, c, base, top, bins, nb, size);
      CarvedLists(sz, c, base, top, bins, nb);
      TilingCarved(c, base, top, nb);
      mem := mem[p + 1 := Head(nb, true)];
      mem := mem[p + nb + 1 := Head(size - nb, true)];
      FastKept(sz, old(mem), mem, c, Carved(c, top, nb), base, top, fastbins, fasts, RequestToSize(sz, 64), -1);
      CarvedGranted(old(mem), mem, c, base, top, nb);
      KeptLength(old(mem), c, mem, Carved(c, top, nb), p);
      top := p + nb;
      c := Carved(c, p, nb);
    }

    /** The words to ask the system for, so that the top has room for `nb` words. */
    function Need(nb: int): int
      reads this`top, this`brk
      requires 0 < page
    {
      RoundUp(nb + topPad + MINWORDS - (if top == BinAt(1) then 0 else brk - top), page)
    }

    /** The system grants what it is asked for, and memory suffices. */
    predicate Enough(nb: int, env: Env)
      reads this`mem, this`brk
    {
      env.first && env.second && brk + nb + topPad + MINWORDS + 2 * page + 1 <= |mem|
    }

    /** Asks the system for memory and makes it part of the top.  `env` says which of the
        requests the system grants. */
    method GrowTop(nb: int, env: Env) returns (ok: bool)
      requires Ready() && maxFast != 0 && nb % 2 == 0 && MINWORDS <= nb
      requires top != BinAt(1) ==> brk - top < nb + MINWORDS
      modifies this`mem, this`top, this`brk, this`base
      ensures Ready() && Kept(old(mem), c, mem, c, -1)
      ensures ok <==> env.first && old(brk + Need(nb)) <= |mem|
      ensures ok ==> top != BinAt(1)
      ensures ok && old(top) != BinAt(1) ==> top == old(top) && brk == old(brk + Need(nb))
      ensures ok && old(top) == BinAt(1) ==> FirstRegion(old(brk), old(Need(nb)), env.second)
      ensures !ok ==> mem == old(mem) && top == old(top) && brk == old(brk) && base == old(base)
      ensures 0 < page && (ok <==> env.first && old(brk) + Shortage(page, topPad, old(Now()), nb) <= |old(mem)|)
      ensures ok ==> top == NewTop(old(Now())) && brk == NewBreak(page, topPad, |old(mem)|, env, old(Now()), nb)
    {
      hide Core, Unopened, FastOk, Kept, BinmapOk, RequestToSize, RoundUp;
      KeptRefl(mem, c, -1);
      TopSize();
      var oldSize := SizeOf(mem[top + 1]);
      var size := RoundUp(nb + topPad + MINWORDS - oldSize, page);
      if !env.first || brk + size > |mem| {
        return false;
      }
      ok := true;
      if top != BinAt(1) {
        ExtendTop(size);
      } else {
        FirstTop(size, env.second);
        KeptLength(old(mem), c, mem, c, -1);
      }
    }

    /** The region after `size` words from `start` on were granted: it begins at an even word, and ends
        on a page boundary if a second request for that is granted. */
    ghost predicate FirstRegion(start: int, size: int, second: bool)
      reads this`mem, this`top, this`brk, this`base
    {
      0 < page && top == base == start + start % 2 && start + size <= |mem| &&
      var end := RoundUp(start + size + start % 2, page);
      brk == if second && end <= |mem| then end else start + size
    }

    /** A top that has grown has room for the request, if nothing was held back. */
    lemma GrownEnough(brk0: int, nb: int, need: int, first: bool, env: Env)
      requires Ready() && top != BinAt(1) && 0 < page && ARENA <= brk0 && MINWORDS <= nb
      requires env.first && env.second && brk0 + nb + topPad + MINWORDS + 2 * page + 1 <= |mem|
      requires first ==> need == RoundUp(nb + topPad + MINWORDS, page) && FirstRegion(brk0, need, env.second)
      requires !first ==> top < brk0 && brk == brk0 + need && need == RoundUp(nb + topPad + MINWORDS - (brk0 - top), page)
      ensures nb + MINWORDS <= brk - top
    {
      hide RoundUp, Core, Unopened, FastOk, BinmapOk, RequestToSize;
    }

    lemma TopSize()
      requires Ready()
      ensures 0 <= top < |mem| - 1 && top < brk && SizeOf(mem[top + 1]) == if top == BinAt(1) then 0 else brk - top
    {
    }

    /** The system extends the region in place: the top grows by as much. */
    method ExtendTop(size: int)
      requires Ready() && top != BinAt(1) && 0 < size && brk + size <= |mem|
      modifies this`mem, this`brk
      ensures Ready() && brk == old(brk) + size && Kept(old(mem), c, mem, c, -1)
    {
      hide Tiling, Coalesced, Tags, Rings, Lists, Sorted, BinSizes, Chains, FastLists, FastSizes, Kept, BinmapOk, RequestToSize, NFastbins, SameInside;
      var oldSize := SizeOf(mem[top + 1]);
      TopWrite(sz, mem, c, base, top, bins, fastbins, fasts, RequestToSize(sz, 64), oldSize, size + oldSize);
      KeptLength(mem, c, mem[top + 1 := Head(size + oldSize, true)], c, -1);
      mem := mem[top + 1 := Head(size + oldSize, true)];
      brk := brk + size;
    }

    /** The first memory from the system: the top starts at its first even word, and a second
        request makes it end on a page boundary, if it is granted. */
    method FirstTop(size: int, second: bool)
      requires Ready() && top == BinAt(1) && MINWORDS < size && brk + size <= |mem|
      modifies this`mem, this`top, this`brk, this`base
      ensures Ready() && top != BinAt(1) && Kept(old(mem), c, mem, c, -1) && FirstRegion(old(brk), size, second)
    {
      hide Core, Unopened, Kept, FastOk, BinmapOk, RequestToSize, NFastbins, RoundUp;
      var end := brk + size;
      var correction := if brk % 2 == 0 then 0 else 1;
      var aligned := brk + correction;
      correction := correction + RoundUp(brk + size + correction, page) - (brk + size + correction);
      if second && end + correction <= |mem| {
        end := end + correction;
      }
      OpenRegion(aligned, end);
    }

    /** The top is the whole of a new region. */
    method OpenRegion(start: int, end: int)
      requires Ready() && top == BinAt(1) && brk <= start && start % 2 == 0 && start + MINWORDS <= end <= |mem|
      modifies this`mem, this`top, this`brk, this`base
      ensures Ready() && top == base == start && brk == end && Kept(old(mem), c, mem, c, -1) && |mem| == |old(mem)|
    {
      hide Tiling, Coalesced, Tags, Rings, Lists, Sorted, BinSizes, Chains, FastLists, FastSizes, Kept, BinmapOk, RequestToSize, NFastbins;
      EmptyTop(sz, mem, start, bins, Head(end - start, true));
      EmptyKept(sz, mem, mem[start + 1 := Head(end - start, true)], fastbins, fasts);
      mem := mem[start + 1 := Head(end - start, true)];
      top, base, brk := start, start, end;
    }

    lemma Positive()
      requires Ready()
      ensures forall a | a in c :: ARENA <= a
    {
      if top != BinAt(1) { TilingPositive(c, base, top); }
    }

    /** A request too large for the bins of one size each. */
    predicate Large(nb: int) { Bytes(sz, nb) >= MIN_LARGE_SIZE }

    lemma PastTop()
      requires Ready()
      ensures top != BinAt(1) ==> forall a | a in c :: a + c[a].n <= top
      ensures top == BinAt(1) ==> c == map[]
    {
      hide Coalesced, Tags, Rings, Lists, Sorted, BinSizes, FastOk, BinmapOk, RequestToSize;
    }

    /** The state after a consolidation, seen from before it. */
    lemma ConsolidatedSettled(m0: seq<int>, c0: Chunks, nb: int, large: bool)
      requires Ready() && Kept(m0, c0, mem, c, -1) && (forall a | a in c :: !c[a].kind.Fast?)
      requires (forall a | a in c0 :: 0 <= a) && (forall a | a in c :: 0 <= a) && (large || NoFit(c0, nb))
      requires top == BinAt(1) ==> c0 == map[]
      ensures Settled(c0, c, base, nb, large)
    {
      hide Tags, Rings, Lists, Sorted, BinSizes, FastOk, BinmapOk, RequestToSize, Kept, Tiling, Coalesced;
      if top == BinAt(1) {
        RelistedRefl(c);
      } else {
        KeptMerged(m0, c0, mem, c, base, top);
      }
    }

    /** use_top: splits the top, or goes to the system. */
    method UseTop(nb: int, env: Env) returns (m: int, ghost origin: Origin, ghost mid: Chunks, ghost stage: Stage)
      requires Ready() && maxFast != 0 && nb % 2 == 0 && MINWORDS <= nb && SearchFits(Bytes(sz, nb)) && NoFit(c, nb)
      requires HaveFast(maxFast) ==> Bytes(sz, nb) < MIN_LARGE_SIZE
      requires !FastHit(sz, Now(), nb)
      modifies this
      ensures Ready() && maxFast != 0 && Answered(old(mem), old(c), mem, c, old(base), m, nb, Large(nb), origin, mid)
      ensures origin.FromRemainder? ==> m - 2 == old(lastRemainder) && !Large(nb)
      ensures m == 0 ==> !old(Enough(nb, env))
      ensures Served(sz, page, topPad, |old(mem)|, env, old(Now()), stage, Now(), mid, m, nb, origin)
      decreases if HaveFast(maxFast) then 1 else 0, 1
    {
      hide Core, Unopened, FastOk, Kept, BinmapOk, RequestToSize, Granted, NoFit, Settled, Served, TopTaken, FastHit;
      TopSize();
      SettledRefl(c, base, nb, Large(nb));
      var size := SizeOf(mem[top + 1]);
      mid := c;
      stage := Now();
      PastTop();
      if size >= nb + MINWORDS {
        WellListed();
        ToServe(nb);
        var p := SplitTop(nb);
        m, origin := p + 2, FromTop;
        ServedTop(sz, page, topPad, |old(mem)|, env, stage, Now(), m, nb);
      } else {
        m, origin, mid, stage := SysAlloc(nb, env);
      }
    }

    lemma WellListed()
      requires Ready()
      ensures 0 < page && Lists(c, bins) && (forall a | a in c && c[a].kind.Fast? :: HaveFast(maxFast))
    {
    }

    /** Parked chunks are flagged. */
    lemma ToServe(nb: int)
      requires Ready() && (HaveFast(maxFast) ==> Bytes(sz, nb) < MIN_LARGE_SIZE)
      ensures Parks(Now()) ==> Bytes(sz, nb) < MIN_LARGE_SIZE
    {
      hide Core, Unopened, FastOk, BinmapOk, RequestToSize;
    }

    /** __malloc_alloc: if there are parked chunks, coalesces them and tries again; otherwise
        gets memory from the system. */
    method SysAlloc(nb: int, env: Env) returns (m: int, ghost origin: Origin, ghost mid: Chunks, ghost stage: Stage)
      requires Ready() && maxFast != 0 && nb % 2 == 0 && MINWORDS <= nb && SearchFits(Bytes(sz, nb)) && NoFit(c, nb)
      requires HaveFast(maxFast) ==> Bytes(sz, nb) < MIN_LARGE_SIZE
      requires top != BinAt(1) ==> brk - top < nb + MINWORDS
      requires !FastHit(sz, Now(), nb)
      modifies this
      ensures Ready() && maxFast != 0 && Answered(old(mem), old(c), mem, c, old(base), m, nb, Large(nb), origin, mid)
      ensures origin.FromRemainder? ==> m - 2 == old(lastRemainder) && !Large(nb)
      ensures m == 0 ==> !old(Enough(nb, env))
      ensures Served(sz, page, topPad, |old(mem)|, env, old(Now()), stage, Now(), mid, m, nb, origin)
      decreases if HaveFast(maxFast) then 1 else 0, 0
    {
      hide Core, Unopened, FastOk, Kept, BinmapOk, Granted, NoFit, Settled, Chosen, RequestToSize, BinIndex, Served, Placed, FastHit, Answered;
      Positive();
      if HaveFast(maxFast) {
        PastTop();
        ghost var s := Now();
        Regroup();
        KeptLength(old(mem), old(c), mem, c, -1);
        Positive();
        ConsolidatedSettled(old(mem), old(c), nb, Large(nb));
        ghost var m1, c1, s1 := mem, c, Now();
        RetryRequest(sz, nb);
        m, origin, mid, stage := Malloc(Bytes(sz, nb) - (Alignment(sz) - 1), env);
        AnsweredAfter(old(mem), old(c), m1, c1, mem, c, old(base), m, nb, Large(nb), origin, mid);
        ServedMerged(sz, page, topPad, |old(mem)|, env, s, s1, stage, Now(), mid, m, nb, origin);
        return;
      }
      WellListed();
      stage := Now();
      m, origin := MoreTop(nb, env);
      mid := old(c);
      SettledRefl(mid, old(base), nb, Large(nb));
      AnsweredTop(old(mem), mid, mem, c, old(base), m, nb, Large(nb), origin);
      ServedMore(sz, page, topPad, |old(mem)|, env, stage, Now(), m, nb, origin);
    }

    /** Consolidation, as the rules see it. */
    method Regroup()
      requires Ready() && maxFast != 0
      modifies this
      ensures maxFast != 0 && Ready() && Kept(old(mem), old(c), mem, c, -1)
      ensures !HaveFast(maxFast) && forall a | a in c :: !c[a].kind.Fast?
      ensures HaveAny(maxFast) == old(HaveAny(maxFast)) && brk == old(brk) && base == old(base) && lastRemainder == old(lastRemainder)
      ensures top == BinAt(1) <==> old(top) == BinAt(1)
      ensures Parks(old(Now())) ==> Regrouped(old(Now()), Now())
      ensures !Parks(old(Now())) ==> Now() == old(Now())
      ensures !Parks(Now())
    {
      hide Core, Unopened, FastOk, Kept, BinmapOk, RequestToSize, Merged, Tiling, Lists;
      Positive();
      PastTop();
      Consolidate();
      Positive();
      if top != BinAt(1) {
        Framed();
        KeptMerged(old(mem), old(c), mem, c, base, top);
      }
    }

    lemma Framed()
      requires Ready() && top != BinAt(1)
      ensures Tiling(c, base, top) && Coalesced(c) && Lists(c, bins)
    {
    }

    /** The rest of __malloc_alloc: memory from the system, and the request out of the top. */
    method MoreTop(nb: int, env: Env) returns (m: int, ghost origin: Origin)
      requires Ready() && maxFast != 0 && nb % 2 == 0 && MINWORDS <= nb && NoFit(c, nb)
      requires top != BinAt(1) ==> brk - top < nb + MINWORDS
      modifies this`mem, this`top, this`brk, this`base, this`c
      ensures Ready() && maxFast != 0
      ensures m == 0 ==> c == old(c) && Kept(old(mem), old(c), mem, c, -1) && origin == Nowhere && !old(Enough(nb, env))
      ensures m != 0 ==>
                && Kept(old(mem), old(c), mem, c, m - 2) && Granted(old(c), c, m - 2, nb) && origin == FromTop
                && forall a | a in old(c) :: a + old(c)[a].n <= m - 2
      ensures 0 < page && (m != 0 <==> MoreHit(page, topPad, |old(mem)|, env, old(Now()), nb))
      ensures m != 0 ==>
                var s := old(Now());
                TopTaken(s, Now(), s.c, m - 2, nb, NewTop(s), NewBreak(page, topPad, |old(mem)|, env, s, nb))
    {
      hide Core, Unopened, FastOk, Kept, BinmapOk, RequestToSize, Granted, NoFit, RoundUp, FirstRegion, Relisted, Shortage, NewTop, NewBreak, Carved;
      RelistedRefl(c);
      Positive();
      TopSize();
      ghost var need := Need(nb);
      var ok := GrowTop(nb, env);
      KeptLength(old(mem), c, mem, c, -1);
      if ok {
        PastTop();
        if old(Enough(nb, env)) { GrownEnough(old(brk), nb, need, old(top) == BinAt(1), env); }
        TopSize();
        if SizeOf(mem[top + 1]) >= nb + MINWORDS {
          ghost var m1 := mem;
          var p := SplitTop(nb);
          Positive();
          GrantedTrans(old(mem), old(c), m1, old(c), mem, c, p, nb);
          return p + 2, FromTop;
        }
      }
      m, origin := 0, Nowhere;
    }

    /** malloc.  `origin` and `mid` say where the chunk came from: among the chunks `mid`, the
        heap after any coalescing and sorting the call did first. */
    method Malloc(bytes: nat, env: Env) returns (m: int, ghost origin: Origin, ghost mid: Chunks, ghost stage: Stage)
      requires Valid()
      requires sz == 8 ==> RequestOutOfRange(sz, bytes) || SearchFits(RequestToSize(sz, bytes))
      modifies this
      ensures Valid()
      ensures bytes == 0 || RequestOutOfRange(sz, bytes) ==> m == 0 && mem == old(mem) && c == old(c) && origin.Refused?
      ensures 0 < bytes && !RequestOutOfRange(sz, bytes) ==>
                var nb := Words(sz, RequestToSize(sz, bytes));
                && Ready() && maxFast != 0 && Answered(old(mem), old(c), mem, c, old(base), m, nb, Large(nb), origin, mid)
                && (origin.FromRemainder? ==> m - 2 == old(lastRemainder) && !Large(nb))
                && (m == 0 ==> !old(Enough(nb, env)))
      ensures 0 < bytes && !RequestOutOfRange(sz, bytes) ==>
                var s := if old(maxFast) == 0 then Untouched(sz, old(base), old(brk), old(lastRemainder)) else old(Now());
                Served(sz, page, topPad, |old(mem)|, env, s, stage, Now(), mid, m, Words(sz, RequestToSize(sz, bytes)), origin)
      decreases if HaveFast(maxFast) then 1 else 0, 5
    {
      hide Core, Unopened, FastOk, Kept, BinmapOk, RequestToSize, RequestOutOfRange, Granted, NoFit, Words, Answered, Settled, Served, FastHit;
      if bytes == 0 || RequestOutOfRange(sz, bytes) {
        return 0, Refused, c, Now();
      }
      RequestWords(sz, bytes);
      var nb := Words(sz, RequestToSize(sz, bytes));
      if !HaveAny(maxFast) {
        if maxFast == 0 {
          m, origin, mid, stage := FirstCall(nb, env);
        } else {
          NoFreeNoFit(c, nb);
          NotParked(sz, Now(), nb);
          m, origin, mid, stage := UseTop(nb, env);
        }
      } else {
        OpenIfFreed();
        m, origin, mid, stage := Search(nb, env);
      }
    }

    lemma OpenIfFreed()
      requires Ready() && HaveAny(maxFast)
      ensures Open()
    {
    }

    /** The first call initializes the state. */
    method FirstCall(nb: int, env: Env) returns (m: int, ghost origin: Origin, ghost mid: Chunks, ghost stage: Stage)
      requires Valid() && maxFast == 0 && nb % 2 == 0 && MINWORDS <= nb && SearchFits(Bytes(sz, nb))
      modifies this
      ensures Ready() && maxFast != 0 && Answered(old(mem), old(c), mem, c, old(base), m, nb, Large(nb), origin, mid)
      ensures origin.FromRemainder? ==> m - 2 == old(lastRemainder) && !Large(nb)
      ensures m == 0 ==> !old(Enough(nb, env))
      ensures Served(sz, page, topPad, |old(mem)|, env, Untouched(sz, old(base), old(brk), old(lastRemainder)), stage, Now(), mid, m, nb, origin)
      decreases if HaveFast(maxFast) then 1 else 0, 3
    {
      hide Core, Unopened, FastOk, Kept, BinmapOk, RequestToSize, NoFit, Answered, Served, FastHit;
      Consolidate();
      Positive();
      PastTop();
      KeptLength(old(mem), old(c), mem, c, -1);
      ghost var m1, c1 := mem, c;
      NoFreeNoFit(c, nb);
      RelistedRefl(c);
      RelistedSettled(old(c), c, base, nb, Large(nb));
      NotParked(sz, Now(), nb);
      m, origin, mid, stage := UseTop(nb, env);
      AnsweredAfter(old(mem), old(c), m1, c1, mem, c, old(base), m, nb, Large(nb), origin, mid);
    }

    /** The search through the lists, from the fast list of the request to the top. */
    method Search(nb: int, env: Env) returns (m: int, ghost origin: Origin, ghost mid: Chunks, ghost stage: Stage)
      requires Open() && HaveAny(maxFast) && nb % 2 == 0 && MINWORDS <= nb && SearchFits(Bytes(sz, nb))
      modifies this
      ensures Ready() && maxFast != 0 && Answered(old(mem), old(c), mem, c, old(base), m, nb, Large(nb), origin, mid)
      ensures origin.FromRemainder? ==> m - 2 == old(lastRemainder) && !Large(nb)
      ensures m == 0 ==> !old(Enough(nb, env))
      ensures Served(sz, page, topPad, |old(mem)|, env, old(Now()), stage, Now(), mid, m, nb, origin)
      decreases if HaveFast(maxFast) then 1 else 0, 4
    {
      hide Core, Unopened, FastOk, Kept, BinmapOk, RequestToSize, Granted, NoFit, Answered, Settled, Chosen, Relisted, MaxFast, FastbinIndex, Served, FastHit, SortedHit, FastTaken, SortedTaken;
      stage := Now();
      WellListed();
      SettledRefl(c, base, nb, Large(nb));
      Positive();
      FastRequest(nb);
      if Bytes(sz, nb) <= maxFast {
        var p := TakeFast(nb);
        if p != 0 {
          Positive();
          AnsweredNow(old(mem), old(c), mem, c, old(base), p, nb, Large(nb), FromFast, old(c));
          ServedFast(sz, page, topPad, |old(mem)|, env, stage, Now(), p, nb);
          return p + 2, FromFast, old(c), stage;
        }
      } else {
        NotFast(sz, stage, nb);
      }
      if Bytes(sz, nb) < MIN_LARGE_SIZE {
        var victim := TakeSmall(nb);
        if victim != 0 {
          Positive();
          AnsweredNow(old(mem), old(c), mem, c, old(base), victim, nb, Large(nb), FromBin, old(c));
          ServedSmall(sz, page, topPad, |old(mem)|, env, stage, Now(), victim, nb);
          return victim + 2, FromBin, old(c), stage;
        }
        m, origin, mid, stage := SearchBins(nb, env);
      } else {
        m, origin, mid, stage := SearchLarge(nb, env);
      }
    }

    /** For a large request, parked chunks are coalesced first. */
    method SearchLarge(nb: int, env: Env) returns (m: int, ghost origin: Origin, ghost mid: Chunks, ghost stage: Stage)
      requires Open() && nb % 2 == 0 && MINWORDS <= nb && SearchFits(Bytes(sz, nb)) && MIN_LARGE_SIZE <= Bytes(sz, nb)
      requires !FastHit(sz, Now(), nb)
      modifies this
      ensures Ready() && maxFast != 0 && Answered(old(mem), old(c), mem, c, old(base), m, nb, Large(nb), origin, mid)
      ensures origin.FromRemainder? ==> m - 2 == old(lastRemainder) && !Large(nb)
      ensures m == 0 ==> !old(Enough(nb, env))
      ensures Served(sz, page, topPad, |old(mem)|, env, old(Now()), stage, Now(), mid, m, nb, origin)
      decreases if HaveFast(maxFast) then 1 else 0, 3
    {
      hide Core, Unopened, FastOk, Kept, BinmapOk, RequestToSize, Granted, NoFit, Answered, Settled, Chosen, Relisted, MaxFast, FastbinIndex, Served, FastHit, SortedHit;
      NoSmallHit(sz, Now(), nb);
      if HaveFast(maxFast) {
        Positive();
        PastTop();
        ghost var s := Now();
        Regroup();
        Positive();
        KeptLength(old(mem), old(c), mem, c, -1);
        ConsolidatedSettled(old(mem), old(c), nb, Large(nb));
        NotParked(sz, Now(), nb);
        NoSmallHit(sz, Now(), nb);
        ghost var m1, c1, s1 := mem, c, Now();
        m, origin, mid, stage := SearchBins(nb, env);
        AnsweredAfter(old(mem), old(c), m1, c1, mem, c, old(base), m, nb, Large(nb), origin, mid);
        ServedMerged(sz, page, topPad, |old(mem)|, env, s, s1, stage, Now(), mid, m, nb, origin);
      } else {
        m, origin, mid, stage := SearchBins(nb, env);
      }
    }

    lemma FastRequest(nb: int)
      requires Ready() && nb % 2 == 0 && MINWORDS <= nb
      ensures Bytes(sz, nb) <= maxFast <==> Bytes(sz, nb) <= RequestToSize(sz, 64)
    {
      hide Core, Unopened, FastOk, BinmapOk;
      BytesAligned(sz, nb);
      DefaultMaxFast(sz);
      FlagsDoNotMatter(Bytes(sz, nb), maxFast);
    }

    /** The part of the search after the exact lists: unsorted chunks, bins, top. */
    method SearchBins(nb: int, env: Env) returns (m: int, ghost origin: Origin, ghost mid: Chunks, ghost stage: Stage)
      requires Open() && nb % 2 == 0 && MINWORDS <= nb && SearchFits(Bytes(sz, nb))
      requires Bytes(sz, nb) < MIN_LARGE_SIZE ==> bins[Bytes(sz, nb) / 8] == []
      requires HaveFast(maxFast) ==> Bytes(sz, nb) < MIN_LARGE_SIZE
      requires !FastHit(sz, Now(), nb) && !SortedHit(sz, Now(), nb)
      modifies this
      ensures Ready() && maxFast != 0 && Answered(old(mem), old(c), mem, c, old(base), m, nb, Large(nb), origin, mid)
      ensures origin.FromRemainder? ==> m - 2 == old(lastRemainder) && !Large(nb)
      ensures m == 0 ==> !old(Enough(nb, env))
      ensures Served(sz, page, topPad, |old(mem)|, env, old(Now()), stage, Now(), mid, m, nb, origin)
      decreases if HaveFast(maxFast) then 1 else 0, 2
    {
      hide Core, Unopened, FastOk, Kept, BinmapOk, RequestToSize, Granted, NoFit, Answered, Settled, Chosen, Relisted, Served, FastHit, SortedHit, UnsortedHit, RemainderHit, OldestTaken, RemainderTaken, FitTaken, LastFit;
      Positive();
      WellListed();
      ToServe(nb);
      stage := Now();
      ghost var s := Now();
      var p;
      p, origin, mid := SortUnsorted(nb);
      if p != 0 {
        Positive();
        RelistedSettled(old(c), mid, base, nb, Large(nb));
        AnsweredNow(old(mem), old(c), mem, c, base, p, nb, Large(nb), origin, mid);
        ServedUnsorted(sz, page, topPad, |old(mem)|, env, s, Now(), mid, p, nb, origin);
        return p + 2, origin, mid, stage;
      }
      Positive();
      RelistedSettled(old(c), c, base, nb, Large(nb));
      ghost var m1, c1, s1 := mem, c, Now();
      SettledRefl(c, base, nb, Large(nb));
      KeptLength(old(mem), old(c), mem, c, -1);
      WellListed();
      RelistedParks(sz, s, s1, nb);
      p := FitInBins(nb);
      if p != 0 {
        Positive();
        AnsweredNow(m1, c1, mem, c, base, p, nb, Large(nb), FromBin, c1);
        m, origin, mid := p + 2, FromBin, c1;
        ServedFit(sz, page, topPad, |old(mem)|, env, s, s1, Now(), p, nb);
      } else {
        m, origin, mid, stage := UseTop(nb, env);
        stage := ServedSorted(sz, page, topPad, |old(mem)|, env, s, s1, stage, Now(), mid, m, nb, origin);
      }
      AnsweredAfter(old(mem), old(c), m1, c1, mem, c, old(base), m, nb, Large(nb), origin, mid);
    }

    /** A best fit among the sorted bins, or 0 if there is none. */
    method FitInBins(nb: int) returns (p: int)
      requires Open() && nb % 2 == 0 && MINWORDS <= nb && SearchFits(Bytes(sz, nb)) && bins[1] == []
      requires Bytes(sz, nb) < MIN_LARGE_SIZE ==> NoExact(c, nb)
      modifies this`mem, this`bins, this`c, this`binmap, this`lastRemainder
      ensures Open()
      ensures p == 0 ==> c == old(c) && mem == old(mem) && lastRemainder == old(lastRemainder) && NoFit(c, nb)
      ensures p != 0 ==> Granted(old(c), c, p, nb) && Kept(old(mem), old(c), mem, c, p) && Chosen(FromBin, old(c), p, nb)
      ensures p == 0 ==> Now() == old(Now())
      ensures p != 0 ==> FitTaken(sz, old(Now()), Now(), old(c), p, nb) && LastFit(old(Now()), p, nb)
    {
      hide Unopened, FastOk, Kept, BinmapOk, RequestToSize, Granted, NoFit, NoFitUpTo, Portion, LastFit, Tiling, Coalesced, Tags, Rings, Lists, Sorted, BinSizes, LargebinIndex;
      var idx := BinIndex(Bytes(sz, nb));
      NoUnsorted(c, bins);
      RelistedRefl(c);
      if Bytes(sz, nb) >= MIN_LARGE_SIZE {
        p := ScanLargebin(nb);
        if p != 0 { return; }
      } else {
        SmallNoFit(sz, c, base, top, |mem|, nb);
      }
      p := ScanBins(idx + 1, nb);
    }

    // ---------- the program's own writes ----------

    /** The program stores into word `x` of its chunk `a`. */
    method Store(a: int, x: int, v: int)
      requires Ready() && top != BinAt(1) && maxFast != 0 && Inside(c, a, x) && c[a].kind == Live
      modifies this`mem
      ensures Ready() && 0 <= x < |old(mem)| && mem == old(mem)[x := v] && Kept(old(mem), c, mem, c, a)
    {
      hide Tiling, Coalesced, Tags, Rings, Lists, Sorted, BinSizes, Chains, FastLists, FastSizes, Kept, BinmapOk, RequestToSize, NFastbins;
      UserWrite(sz, mem, c, base, top, bins, fastbins, fasts, RequestToSize(sz, 64), a, x, v);
      mem := mem[x := v];
    }

    lemma Separate(oldp: int, newp: int)
      requires Open() && oldp in c && newp in c && oldp != newp
      ensures 0 <= oldp && 0 <= newp && oldp + c[oldp].n < |mem| && newp + c[newp].n < |mem|
      ensures oldp + c[oldp].n <= newp || newp + c[newp].n <= oldp
      ensures c[oldp].n % 2 == 0 && MINWORDS <= c[oldp].n
    {
      hide Coalesced, Tags, Rings, Lists, Sorted, BinSizes, FastOk, BinmapOk, RequestToSize;
    }

    /** Copies words `lo` to `hi` of chunk `oldp` into chunk `newp`. */
    method CopyRange(oldp: int, newp: int, lo: int, hi: int, ghost m0: seq<int>)
      requires Open() && oldp in c && newp in c && oldp != newp && c[oldp].kind == Live && c[newp].kind == Live
      requires 0 <= lo <= hi <= c[oldp].n - 1 && hi < c[newp].n
      requires Copied(m0, mem, oldp, newp, lo) && Kept(m0, c, mem, c, newp)
      modifies this`mem
      ensures Open() && Copied(m0, mem, oldp, newp, hi) && Kept(m0, c, mem, c, newp)
    {
      hide Core, Unopened, FastOk, Kept, BinmapOk, RequestToSize;
      var k := lo;
      while k < hi
        invariant lo <= k <= hi && Open() && Copied(m0, mem, oldp, newp, k) && Kept(m0, c, mem, c, newp)
      {
        Separate(oldp, newp);
        ghost var m1 := mem;
        assert Inside(c, newp, newp + 2 + k);
        assert mem[oldp + 2 + k] == m0[oldp + 2 + k];
        Store(newp, newp + 2 + k, mem[oldp + 2 + k]);
        KeptTrans(m0, c, m1, c, mem, c, newp);
        k := k + 1;
      }
    }

    /** The copy of realloc: unrolled for up to nine words, which is complete because the
        number of words is odd and at least three. */
    method CopyWords(oldp: int, newp: int, ncopies: int)
      requires Open() && oldp in c && newp in c && oldp != newp && c[oldp].kind == Live && c[newp].kind == Live
      requires ncopies == c[oldp].n - 1 && ncopies < c[newp].n
      modifies this`mem
      ensures Open() && Kept(old(mem), c, mem, c, newp) && Copied(old(mem), mem, oldp, newp, ncopies)
    {
      hide Core, Unopened, FastOk, Kept, BinmapOk, RequestToSize;
      Separate(oldp, newp);
      KeptRefl(mem, c, newp);
      if ncopies > 9 {
        CopyRange(oldp, newp, 0, ncopies, old(mem));
      } else {
        CopyRange(oldp, newp, 0, 3, old(mem));
        if ncopies > 4 {
          CopyRange(oldp, newp, 3, 5, old(mem));
          if ncopies > 6 {
            CopyRange(oldp, newp, 5, 7, old(mem));
            if ncopies > 8 {
              CopyRange(oldp, newp, 7, 9, old(mem));
            }
          }
        }
      }
    }

    // ---------- realloc ----------

    /** In the middle of resizing `p` over [p, e): the free chunk in the range, if any, is off its
        list, and `m0` is the memory before that. */
    ghost predicate Stretching(m0: seq<int>, p: int, e: int)
      reads this`mem, this`brk, this`top, this`base, this`c, this`bins
    {
      && ARENA <= base <= top && Tiling(c, base, top) && Coalesced(c) && Tags(m0, c)
      && MINWORDS <= brk - top && brk <= |mem| == |m0| && TopOk(m0, top, brk - top)
      && BinSizes(sz, c) && Sorted(c, bins) && |bins| == NBINS && Rings(mem, bins) && Lists(Held(c, p, e), bins)
      && SameTags(m0, mem, c, top, {})
      && p in c && c[p].kind == Live && p < e && (e in c || e == top)
      && (forall a | a in c && p <= a < e :: !c[a].kind.Fast?)
    }

    /** Gives chunk `p` the size `n`, and makes the rest of the range, if any, a chunk in use. */
    method SetSize(p: int, e: int, n: int, ghost m0: seq<int>)
      requires Stretching(m0, p, e) && Tables() && top != BinAt(1) && maxFast != 0 && ResizeOk(c, top, p, e, n)
      modifies this`mem, this`c
      ensures Open() && c == Resized(old(c), p, e, n)
      ensures KeptOut(old(mem), old(c), mem, c, p, e) && SamePrefix(old(mem), mem, p, n)
    {
      hide Tiling, Coalesced, Tags, Rings, Lists, Sorted, BinSizes, Chains, FastLists, FastSizes, BinmapOk, RequestToSize, NFastbins, SameTags, Resized, KeptOut, SamePrefix, SameLinks;
      ResizeTags(m0, mem, c, base, top, p, e, n, brk - top);
      ResizeLists(sz, c, base, top, bins, p, e, n);
      ResizeRings(mem, c, base, top, bins, p, e, n);
      ResizeKept(mem, c, base, top, p, e, n);
      FastKeptLinks(sz, mem, ResizeWords(mem, p, e, n), c, Resized(c, p, e, n), fastbins, fasts, RequestToSize(sz, 64));
      ResizedKinds(c, base, top, p, e, n);
      mem := mem[p + 1 := Head(n, Pinuse(mem[p + 1]))];
      if p + n < e {
        mem := mem[p + n + 1 := Head(e - p - n, true)];
      }
      mem := mem[e + 1 := SetPinuse(mem[e + 1])];
      c := Resized(c, p, e, n);
    }

    /** The tail of realloc: `p` becomes the only chunk in use of [p, e), and a rest large
        enough to be a chunk is freed. */
    method Finish(p: int, e: int, nb: int, give: nat, ghost m0: seq<int>) returns (ghost lo: int, ghost hi: int)
      requires Stretching(m0, p, e) && Tables() && top != BinAt(1) && maxFast != 0
      requires nb % 2 == 0 && MINWORDS <= nb <= e - p
      modifies this
      ensures Open() && p in c && c[p].kind == Live && nb <= c[p].n < nb + MINWORDS
      ensures KeptOut(old(mem), old(c), mem, c, p, e) && SamePrefix(old(mem), mem, p, c[p].n)
      ensures forall a | a in c && c[a].kind == Live && p <= a < e :: a == p
      ensures Shrunk(sz, page, topPad, trimThreshold, give, old(Now()), Now(), p, e, nb, lo, hi)
    {
      hide Tiling, Coalesced, Tags, Rings, Lists, Sorted, BinSizes, FastOk, Unopened, BinmapOk, RequestToSize, SameTags, Resized, KeptOut, SamePrefix, Kept, FreedBy;
      lo, hi := p, p;
      RangeParity(c, base, top, p, e);
      var remainderSize := e - p - nb;
      if remainderSize < MINWORDS {
        ResizedInRange(c, base, top, p, e, e - p);
        SetSize(p, e, e - p, m0);
      } else {
        ResizedInRange(c, base, top, p, e, nb);
        SetSize(p, e, nb, m0);
        ghost var m1, c1 := mem, c;
        KeptOutLength(old(mem), old(c), m1, c1, p, e);
        lo, hi := Free(p + nb + 2, give);
        KeptLength(m1, c1, mem, c, p + nb);
        KeptOutFree(old(mem), old(c), m1, c1, mem, c, p, e, nb);
        SamePrefixTrans(old(mem), m1, mem, p, nb);
      }
    }

    /** Takes the free chunk after `p` off its list, to be merged into `p`. */
    method AbsorbNext(p: int, next: int)
      requires Open() && p in c && c[p].kind == Live && next == Succ(c, p) && next in c && c[next].kind.Binned?
      modifies this`mem, this`bins
      ensures Tables() && Stretching(old(mem), p, Succ(c, Succ(c, p)))
      ensures forall a | a in c && p <= a < Succ(c, Succ(c, p)) :: a == p || c[a].kind.Binned?
      ensures SameInside(old(mem), mem, c, -1)
    {
      hide Tiling, Coalesced, Tags, Rings, Lists, Sorted, BinSizes, Chains, FastLists, FastSizes, BinmapOk, RequestToSize, NFastbins, SameTags, SameInside;
      NextInRange(c, base, top, p);
      HeldOne(c, base, top, p);
      HeldOn(c, base, top, p, next);
      TilingPositive(c, base, top);
      ghost var k := Where(c, bins, next);
      SortedWithout(c, bins, c[next].kind.bin, k);
      Unlink(next, c, c[next].kind.bin, k);
      FastKept(sz, old(mem), mem, c, c, base, top, fastbins, fasts, RequestToSize(sz, 64), -1);
      BinmapFewer(binmap, old(bins), bins);
    }

    /** Grows chunk `p`, which borders the top, to `nb` words. */
    method GrowIntoTop(p: int, nb: int)
      requires Open() && p in c && c[p].kind == Live && Succ(c, p) == top
      requires nb % 2 == 0 && c[p].n < nb && p + nb + MINWORDS <= brk
      modifies this`mem, this`c, this`top
      ensures Open() && p in c && c[p] == Chunk(nb, Live) && Kept(old(mem), old(c), mem, c, p)
      ensures SamePrefix(old(mem), mem, p, old(c)[p].n)
      ensures c == Grown(old(c), p, nb) && top == p + nb
    {
      hide Tiling, Coalesced, Tags, Rings, Lists, Sorted, BinSizes, Chains, FastLists, FastSizes, BinmapOk, RequestToSize, NFastbins, Kept, SamePrefix, SameInside, Unopened, Grown;
      TilingPositive(c, base, top);
      GrowMemory(sz, mem, c, base, top, bins, p, nb, brk - p - nb);
      GrowKept(mem, c, base, top, p, nb, brk - p - nb);
      FastKept(sz, mem, GrowWords(mem, p, nb, brk - p - nb), c, Grown(c, p, nb), base, top, fastbins, fasts, RequestToSize(sz, 64), -1);
      NextChunk(mem, c, base, top, p);
      GrownKinds(c, p, nb);
      var newsize := SizeOf(mem[p + 1]) + SizeOf(mem[top + 1]);
      mem := mem[p + 1 := Head(nb, Pinuse(mem[p + 1]))];
      top := p + nb;
      mem := mem[top + 1 := Head(newsize - nb, true)];
      c := Grown(c, p, nb);
    }

    /** Starting to resize without taking anything off a list. */
    lemma StretchUsed(p: int, e: int)
      requires Open() && p in c && c[p].kind == Live && p < e && (e in c || e == top)
      requires forall a | a in c && p <= a < e :: c[a].kind == Live
      ensures Stretching(mem, p, e)
    {
      assert Held(c, p, e) == c;
    }

    lemma OneInRange(p: int)
      requires Open() && p in c
      ensures p < Succ(c, p) && (Succ(c, p) in c || Succ(c, p) == top) && forall a | a in c && p <= a < Succ(c, p) :: a == p
      ensures 0 <= p && SizeOf(mem[p + 1]) == c[p].n && Succ(c, p) < |mem| - 1
      ensures SameInside(mem, mem, c, -1)
      ensures Succ(c, p) in c ==> SizeOf(mem[Succ(c, p) + 1]) == c[Succ(c, p)].n
    {
      hide Coalesced, Rings, Lists, Sorted, BinSizes, FastOk, BinmapOk, RequestToSize;
      NextChunk(mem, c, base, top, p);
    }

    /** Already big enough: split off what is not needed. */
    method ReallocHere(p: int, nb: int, give: nat) returns (ghost lo: int, ghost hi: int)
      requires Open() && p in c && c[p].kind == Live && nb % 2 == 0 && MINWORDS <= nb <= c[p].n
      modifies this
      ensures Open() && Reallocated(old(mem), old(c), mem, c, p, p, nb)
      ensures Shrunk(sz, page, topPad, trimThreshold, give, old(Now()), Now(), p, Succ(old(c), p), nb, lo, hi)
    {
      hide Unopened, FastOk, BinmapOk, RequestToSize, Tiling, Coalesced, Tags, Rings, Lists, Sorted, BinSizes, SameInside, Reallocated, KeptOut, SamePrefix, Shrunk;
      OneInRange(p);
      ghost var e0 := Succ(c, p);
      StretchUsed(p, e0);
      var oldsize := SizeOf(mem[p + 1]);
      lo, hi := Finish(p, p + oldsize, nb, give, mem);
      ReallocInPlace(old(mem), old(mem), old(c), mem, c, old(base), old(top), p, e0, nb);
    }

    /** The free chunk after `p` makes it big enough. */
    method ReallocNext(p: int, next: int, nb: int, give: nat)
      requires Open() && p in c && c[p].kind == Live && next == Succ(c, p) && next in c && c[next].kind.Binned?
      requires nb % 2 == 0 && MINWORDS <= nb <= c[p].n + c[next].n
      modifies this
      ensures Open() && Reallocated(old(mem), old(c), mem, c, p, p, nb)
    {
      hide Unopened, FastOk, BinmapOk, RequestToSize, Tiling, Coalesced, Tags, Rings, Lists, Sorted, BinSizes, SameInside, Reallocated, KeptOut, SamePrefix, Shrunk;
      OneInRange(p);
      var newsize := SizeOf(mem[p + 1]) + SizeOf(mem[next + 1]);
      AbsorbNext(p, next);
      ghost var mu, c1 := mem, c;
      var _, _ := Finish(p, p + newsize, nb, give, old(mem));
      ReallocInPlace(old(mem), mu, old(c), mem, c, old(base), old(top), p, p + newsize, nb);
    }

    /** Allocate, copy, free; or join the new chunk to the old one if it happens to follow it. */
    method ReallocMove(p: int, nb: int, env: Env, give: nat) returns (q: int, ghost how: Moving)
      requires Open() && p in c && c[p].kind == Live && nb % 2 == 0 && c[p].n < nb && MINWORDS <= nb && SearchFits(Bytes(sz, nb))
      modifies this
      ensures Ready() && maxFast != 0
      ensures q == 0 ==> Kept(old(mem), old(c), mem, c, -1) && !old(Enough(nb, env))
      ensures q != 0 ==> Open() && Reallocated(old(mem), old(c), mem, c, p, q, nb)
      ensures !RequestOutOfRange(sz, Bytes(sz, nb) - (Alignment(sz) - 1)) ==>
                Relocated(sz, page, topPad, trimThreshold, |old(mem)|, env, give, old(Now()), Now(), p, q, nb, how)
    {
      hide Core, Unopened, FastOk, BinmapOk, RequestToSize, RequestOutOfRange, Words, Reallocated, Settled, Chosen, Kept, Served, FreedBy;
      Positive();
      KeptRefl(mem, c, -1);
      CopyRequest(sz, nb);
      ghost var limit := |mem|;
      var newmem, origin, mid, stage := Malloc(Bytes(sz, nb) - (Alignment(sz) - 1), env);
      how := Moving(stage, Now(), mid, newmem, origin, 0, 0);
      if newmem == 0 {
        if RequestOutOfRange(sz, Bytes(sz, nb) - (Alignment(sz) - 1)) { TooLargeForArena(sz, nb, limit); }
        return 0, how;
      }
      q := newmem - 2;
      StillUsed(old(mem), old(c), mem, c, p, q);
      OpenIfUsed(p);
      Positive();
      ghost var lo, hi;
      q, lo, hi := MoveTo(p, q, nb, give, old(mem), old(c));
      how := how.(lo := lo, hi := hi);
    }

    /** Moves the contents of chunk `p` to the new chunk `q`, or joins the two if `q` follows `p`. */
    method MoveTo(p: int, q: int, nb: int, give: nat, ghost m0: seq<int>, ghost c0: Chunks)
      returns (r: int, ghost lo: int, ghost hi: int)
      requires Open() && p in c && q in c && p != q && c[p].kind == Live && c[q].kind == Live && MINWORDS <= nb && nb % 2 == 0
      requires p in c0 && c0[p] == c[p] && c[p].n < nb && Kept(m0, c0, mem, c, q) && Granted(c0, c, q, nb)
      modifies this
      ensures Open() && r != 0 && Reallocated(m0, c0, mem, c, p, r, nb)
      ensures r == if q == p + c0[p].n then p else q
      ensures r == q ==> FreedBy(sz, page, topPad, trimThreshold, give, old(Now()), Now(), p, lo, hi)
    {
      hide Core, Unopened, FastOk, BinmapOk, RequestToSize, Reallocated, KeptOut, SamePrefix, Copied, Kept, FreedBy;
      OneInRange(p);
      OneInRange(q);
      Positive();
      ghost var m1, c1 := mem, c;
      var oldsize := SizeOf(mem[p + 1]);
      var newsize := SizeOf(mem[q + 1]);
      if q == p + oldsize {
        JoinNext(p, q, nb, give);
        ReallocJoined(m0, c0, m1, c1, mem, c, p, q, q + newsize, nb);
        r, lo, hi := p, p, p;
      } else {
        CopyWords(p, q, oldsize - 1);
        ghost var m2 := mem;
        lo, hi := Free(p + 2, give);
        ReallocCopied(m0, c0, m1, c1, m2, mem, c, p, q, nb);
        r := q;
      }
    }

    lemma OpenIfUsed(p: int)
      requires Ready() && maxFast != 0 && p in c
      ensures Open()
    {
    }

    /** Makes the two adjacent chunks in use `p` and `q` one. */
    method JoinNext(p: int, q: int, nb: int, give: nat)
      requires Open() && p in c && q in c && c[p].kind == Live && c[q].kind == Live && q == Succ(c, p) && p < q
      requires nb % 2 == 0 && MINWORDS <= nb <= c[q].n
      modifies this
      ensures Open() && p in c && c[p].kind == Live && nb <= c[p].n < nb + MINWORDS
      ensures KeptOut(old(mem), old(c), mem, c, p, Succ(old(c), q)) && SamePrefix(old(mem), mem, p, c[p].n)
      ensures forall a | a in c && c[a].kind == Live && p <= a < Succ(old(c), q) :: a == p
      ensures forall a | a in old(c) && p <= a < Succ(old(c), q) :: a == p || a == q
    {
      hide Unopened, FastOk, BinmapOk, RequestToSize, Tiling, Coalesced, Tags, Rings, Lists, Sorted, BinSizes, SameInside, KeptOut, SamePrefix, Shrunk;
      OneInRange(p);
      OneInRange(q);
      ghost var e := Succ(c, q);
      assert forall a | a in c && p <= a < e :: a == p || a == q;
      StretchUsed(p, e);
      var newsize := SizeOf(mem[p + 1]) + SizeOf(mem[q + 1]);
      var _, _ := Finish(p, p + newsize, nb, give, mem);
    }

    /** The chunk, with the top or the free chunk behind it, has room for `nb` words. */
    ghost predicate RoomHere(p: int, nb: int)
      reads this`c, this`top, this`brk
    {
      p in c &&
      var next := Succ(c, p);
      || nb <= c[p].n
      || (next == top && nb + MINWORDS <= c[p].n + brk - top)
      || (next != top && next in c && c[next].kind.Binned? && nb <= c[p].n + c[next].n)
    }

    /** realloc of a chunk in use to `nb` words; 0 if that fails. */
    method ReallocChunk(p: int, nb: int, env: Env, give: nat) returns (q: int, ghost how: Moving)
      requires Open() && p in c && c[p].kind == Live && nb % 2 == 0 && MINWORDS <= nb && SearchFits(Bytes(sz, nb))
      modifies this
      ensures Ready() && maxFast != 0
      ensures q == 0 ==> Kept(old(mem), old(c), mem, c, -1) && !old(Enough(nb, env))
      ensures q != 0 ==> Open() && Reallocated(old(mem), old(c), mem, c, p, q, nb)
      ensures old(RoomHere(p, nb)) ==> q == p
      ensures nb <= old(c)[p].n ==>
                Shrunk(sz, page, topPad, trimThreshold, give, old(Now()), Now(), p, Succ(old(c), p), nb, how.lo, how.hi)
      ensures !old(RoomHere(p, nb)) && !RequestOutOfRange(sz, Bytes(sz, nb) - (Alignment(sz) - 1)) ==>
                Relocated(sz, page, topPad, trimThreshold, |old(mem)|, env, give, old(Now()), Now(), p, q, nb, how)
    {
      hide Core, Unopened, FastOk, BinmapOk, RequestToSize, Reallocated, Kept, SamePrefix, Shrunk, Relocated, RequestOutOfRange;
      how := Moving(Now(), Now(), c, 0, Nowhere, 0, 0);
      OneInRange(p);
      Positive();
      TopSize();
      var oldsize := SizeOf(mem[p + 1]);
      if oldsize >= nb {
        ghost var lo, hi := ReallocHere(p, nb, give);
        return p, how.(lo := lo, hi := hi);
      }
      var next := p + oldsize;
      if next == top && oldsize + SizeOf(mem[next + 1]) >= nb + MINWORDS {
        GrowIntoTop(p, nb);
        ReallocGrown(old(mem), old(c), mem, c, p, nb);
        return p, how;
      }
      if next != top {
        OneInRange(next);
        InUse(next);
        var nextsize := SizeOf(mem[next + 1]);
        if !Pinuse(mem[next + nextsize + 1]) && oldsize + nextsize >= nb {
          ReallocNext(p, next, nb, give);
          return p, how;
        }
      }
      q, how := ReallocMove(p, nb, env, give);
    }

    lemma InUse(p: int)
      requires Open() && p in c
      ensures 0 <= p && Succ(c, p) < |mem| - 1 && Pinuse(mem[Succ(c, p) + 1]) == !c[p].kind.Binned?
    {
      assert HeadOk(mem, c, p);
    }

    /** realloc.  A failure leaves every chunk in use, including the given one, as it was. */
    method Realloc(m: int, bytes: nat, env: Env, give: nat) returns (r: int, ghost how: Moving)
      requires Valid() && (m == 0 || (m - 2 in c && c[m - 2].kind == Live))
      requires sz == 8 ==> RequestOutOfRange(sz, bytes) || SearchFits(RequestToSize(sz, bytes))
      modifies this
      ensures Valid()
      ensures r == 0 && (m == 0 || 0 < bytes) ==> Kept(old(mem), old(c), mem, c, -1)
      ensures m == 0 && r != 0 ==> Kept(old(mem), old(c), mem, c, r - 2) && Granted(old(c), c, r - 2, Words(sz, RequestToSize(sz, bytes)))
      ensures m != 0 && bytes == 0 ==> r == 0 && Kept(old(mem), old(c), mem, c, m - 2) && !(m - 2 in c && c[m - 2].kind == Live)
      ensures m != 0 && r != 0 ==> Reallocated(old(mem), old(c), mem, c, m - 2, r - 2, Words(sz, RequestToSize(sz, bytes)))
      ensures RequestOutOfRange(sz, bytes) ==> r == 0
      ensures 0 < bytes && !RequestOutOfRange(sz, bytes) && r == 0 ==> !old(Enough(Words(sz, RequestToSize(sz, bytes)), env))
      ensures m != 0 && 0 < bytes && !RequestOutOfRange(sz, bytes) && old(RoomHere(m - 2, Words(sz, RequestToSize(sz, bytes)))) ==> r == m
      ensures m == 0 && 0 < bytes && !RequestOutOfRange(sz, bytes) ==>
                var s := if old(maxFast) == 0 then Untouched(sz, old(base), old(brk), old(lastRemainder)) else old(Now());
                Served(sz, page, topPad, |old(mem)|, env, s, how.stage, Now(), how.mid, r, Words(sz, RequestToSize(sz, bytes)), how.origin)
      ensures m != 0 && bytes == 0 ==> FreedBy(sz, page, topPad, trimThreshold, give, old(Now()), Now(), m - 2, how.lo, how.hi)
    {
      hide Core, Unopened, FastOk, BinmapOk, RequestToSize, RequestOutOfRange, Kept, Words, Served, FreedBy, Relocated, Shrunk;
      how := Moving(Now(), Now(), c, 0, Nowhere, 0, 0);
      KeptRefl(mem, c, -1);
      if m == 0 {
        var newmem, origin, mid, stage := Malloc(bytes, env);
        return newmem, how.(stage := stage, mid := mid, origin := origin);
      }
      if bytes == 0 {
        ghost var lo, hi := Free(m, give);
        return 0, how.(lo := lo, hi := hi);
      }
      if RequestOutOfRange(sz, bytes) {
        return 0, how;
      }
      RequestWords(sz, bytes);
      var nb := Words(sz, RequestToSize(sz, bytes));
      OpenIfUsed(m - 2);
      Positive();
      var q;
      q, how := ReallocChunk(m - 2, nb, env, give);
      Positive();
      r := if q == 0 then 0 else q + 2;
    }
  }
}

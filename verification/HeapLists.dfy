/** The lists of free chunks, as the link words in memory represent them.

    A bin is a circular doubly linked list through a header.  The headers share the words of
    one array: the header of bin `i` is treated as a chunk at address `2 * i`, of which only
    the two link words (2*i + 2 and 2*i + 3) exist.  A fast list is singly linked and ends
    in 0.
 */
module HeapLists {
  import opened HeapTags
  import opened HeapSizes

  /** The first word after the bin array. */
  const ARENA := 194

  function BinAt(i: int): int { 2 * i }

  // ---------- one ring ----------

  ghost function NextAt(h: int, s: seq<int>, k: int): int
    requires 0 <= k < |s|
  {
    if k + 1 < |s| then s[k + 1] else h
  }

  ghost function PrevAt(h: int, s: seq<int>, k: int): int
    requires 0 <= k < |s|
  {
    if k > 0 then s[k - 1] else h
  }

  ghost predicate NodeOk(mem: seq<int>, h: int, s: seq<int>, k: int)
    requires 0 <= k < |s|
  {
    && 0 <= s[k] < |mem| - 3 && s[k] % 2 == 0 && s[k] != h
    && mem[s[k] + 2] == NextAt(h, s, k)
    && mem[s[k] + 3] == PrevAt(h, s, k)
  }

  ghost predicate Ring(mem: seq<int>, h: int, s: seq<int>) {
    && 0 <= h < |mem| - 3 && h % 2 == 0
    && mem[h + 2] == (if s == [] then h else s[0])
    && mem[h + 3] == (if s == [] then h else s[|s| - 1])
    && (forall k {:trigger NodeOk(mem, h, s, k)} | 0 <= k < |s| :: NodeOk(mem, h, s, k))
  }

  ghost predicate Distinct(s: seq<int>) {
    forall j, k | 0 <= j < k < |s| :: s[j] != s[k]
  }

  ghost function Without(s: seq<int>, k: int): seq<int>
    requires 0 <= k < |s|
  {
    s[..k] + s[k + 1..]
  }

  ghost function With(s: seq<int>, k: int, p: int): seq<int>
    requires 0 <= k <= |s|
  {
    s[..k] + [p] + s[k..]
  }

  /** The effect of unlink on memory; the source aborts unless the neighbours point back. */
  function Unlinked(mem: seq<int>, fd: int, bk: int): (mem': seq<int>)
    requires 0 <= fd < |mem| - 3 && 0 <= bk < |mem| - 3
    ensures |mem'| == |mem|
  {
    mem[fd + 3 := bk][bk + 2 := fd]
  }

  function Inserted(mem: seq<int>, p: int, bck: int, fwd: int): (mem': seq<int>)
    requires 0 <= p < |mem| - 3 && 0 <= bck < |mem| - 3 && 0 <= fwd < |mem| - 3
    ensures |mem'| == |mem|
  {
    mem[p + 3 := bck][p + 2 := fwd][bck + 2 := p][fwd + 3 := p]
  }

  /** Unlinking takes exactly the chunk at `k` off its list, and its check never fails. */
  lemma RingUnlink(mem: seq<int>, h: int, s: seq<int>, k: int)
    requires Ring(mem, h, s) && Distinct(s) && 0 <= k < |s|
    ensures NodeOk(mem, h, s, k)
    ensures var fd, bk := mem[s[k] + 2], mem[s[k] + 3];
            && 0 <= fd < |mem| - 3 && 0 <= bk < |mem| - 3
            && mem[fd + 3] == s[k] && mem[bk + 2] == s[k]
            && Ring(Unlinked(mem, fd, bk), h, Without(s, k))
  {
    assert NodeOk(mem, h, s, k);
    assert k > 0 ==> NodeOk(mem, h, s, k - 1);
    assert k + 1 < |s| ==> NodeOk(mem, h, s, k + 1);
    var fd, bk := mem[s[k] + 2], mem[s[k] + 3];
    var mem' := Unlinked(mem, fd, bk);
    var t := Without(s, k);
    forall j | 0 <= j < |t| ensures NodeOk(mem', h, t, j) {
      assert NodeOk(mem, h, s, if j < k then j else j + 1);
    }
  }

  lemma InsertedNode(mem: seq<int>, mem': seq<int>, h: int, s: seq<int>, k: int, p: int, j: int)
    requires Ring(mem, h, s) && Distinct(s) && 0 <= k <= |s| && |mem'| == |mem|
    requires 0 <= p < |mem| - 3 && p % 2 == 0 && p != h && p !in s
    requires var fwd := if k < |s| then s[k] else h;
             var bck := if k > 0 then s[k - 1] else h;
             && mem'[p + 2] == fwd && mem'[p + 3] == bck
             && (forall x | 0 <= x < |mem| - 3 && x % 2 == 0 && x != p ::
                   && mem'[x + 2] == (if x == bck then p else mem[x + 2])
                   && mem'[x + 3] == (if x == fwd then p else mem[x + 3]))
    requires 0 <= j <= |s|
    ensures NodeOk(mem', h, With(s, k, p), j)
  {
    var t := With(s, k, p);
    if j != k {
      var i := if j < k then j else j - 1;
      assert NodeOk(mem, h, s, i);
      assert t[j] == s[i];
    } else {
      assert t[j] == p;
    }
    assert NextAt(h, t, j) == if j + 1 == k then p else if j < k then s[j + 1] else if j < |s| then s[j] else h;
    assert PrevAt(h, t, j) == if j == k + 1 then p else if j > k then s[j - 2] else if j > 0 then s[j - 1] else h;
  }

  /** Linking `p` in before position `k` puts exactly it there. */
  lemma RingInsert(mem: seq<int>, h: int, s: seq<int>, k: int, p: int)
    requires Ring(mem, h, s) && Distinct(s) && 0 <= k <= |s|
    requires 0 <= p < |mem| - 3 && p % 2 == 0 && p != h && p !in s
    ensures var fwd := if k < |s| then s[k] else h;
            var bck := if k > 0 then s[k - 1] else h;
            && 0 <= fwd < |mem| - 3 && 0 <= bck < |mem| - 3
            && Ring(Inserted(mem, p, bck, fwd), h, With(s, k, p))
  {
    assert k > 0 ==> NodeOk(mem, h, s, k - 1);
    assert k < |s| ==> NodeOk(mem, h, s, k);
    var fwd := if k < |s| then s[k] else h;
    var bck := if k > 0 then s[k - 1] else h;
    var mem' := Inserted(mem, p, bck, fwd);
    var t := With(s, k, p);
    forall j | 0 <= j < |t| ensures NodeOk(mem', h, t, j) {
      InsertedNode(mem, mem', h, s, k, p, j);
    }
  }

  lemma RingFrame(mem: seq<int>, mem': seq<int>, h: int, s: seq<int>)
    requires Ring(mem, h, s) && |mem'| == |mem|
    requires mem'[h + 2] == mem[h + 2] && mem'[h + 3] == mem[h + 3]
    requires forall k | 0 <= k < |s| && 0 <= s[k] < |mem| - 3 ::
               mem'[s[k] + 2] == mem[s[k] + 2] && mem'[s[k] + 3] == mem[s[k] + 3]
    ensures Ring(mem', h, s)
  {
    forall k | 0 <= k < |s| ensures NodeOk(mem', h, s, k) {
      assert NodeOk(mem, h, s, k);
    }
  }

  // ---------- all bins ----------

  ghost predicate Rings(mem: seq<int>, bins: seq<seq<int>>) {
    && |bins| == NBINS
    && (forall i {:trigger bins[i]} | 1 <= i < NBINS :: Ring(mem, BinAt(i), bins[i]))
  }

  ghost predicate OnList(c: Chunks, bins: seq<seq<int>>, i: int, k: int)
    requires 0 <= i < |bins| && 0 <= k < |bins[i]|
  {
    bins[i][k] in c && c[bins[i][k]].kind == Binned(i)
  }

  /** Every free chunk is on the one list its kind names, once, and nothing else is on a list. */
  ghost predicate Lists(c: Chunks, bins: seq<seq<int>>) {
    && |bins| == NBINS
    && (forall i {:trigger bins[i]} | 1 <= i < NBINS :: Distinct(bins[i]))
    && (forall i, k {:trigger OnList(c, bins, i, k)} | 1 <= i < NBINS && 0 <= k < |bins[i]| :: OnList(c, bins, i, k))
    && (forall a | a in c && c[a].kind.Binned? :: 1 <= c[a].kind.bin < NBINS && a in bins[c[a].kind.bin])
  }

  /** A chunk or header whose link words belong to the list of bin `i`. */
  ghost predicate NodeOf(c: Chunks, i: int, z: int) {
    z == BinAt(i) || (z in c && c[z].kind.Binned? && c[z].kind.bin == i)
  }

  /** A word the user of chunk `a` may write: up to and including word 0 of the next chunk. */
  ghost predicate Inside(c: Chunks, a: int, x: int) {
    a in c && !c[a].kind.Binned? && a + 2 <= x <= Succ(c, a)
  }

  /** The words inside used chunks, other than the one at `p`, are the same. */
  ghost predicate SameInside(mem: seq<int>, mem': seq<int>, c: Chunks, p: int) {
    && |mem'| == |mem|
    && (forall a, x {:trigger Inside(c, a, x)} | a != p && Inside(c, a, x) && 0 <= x < |mem| :: mem'[x] == mem[x])
  }

  /** Writing a link word of a free chunk or header disturbs no tag and no used chunk. */
  lemma LinkWrite(mem: seq<int>, c: Chunks, base: int, top: int, i: int, z: int, y: int, v: int)
    requires Tiling(c, base, top) && ARENA <= base && 1 <= i < NBINS && NodeOf(c, i, z)
    requires (y == z + 2 || y == z + 3) && 0 <= y < |mem|
    ensures SameTags(mem, mem[y := v], c, top, {}) && SameInside(mem, mem[y := v], c, -1)
  {
    var mem' := mem[y := v];
    forall a | a in c || a == top ensures SameTag(mem, mem', a) {
    }
    forall a, x | Inside(c, a, x) && 0 <= x < |mem| ensures mem'[x] == mem[x] {
    }
  }

  lemma SameTrans(m0: seq<int>, m1: seq<int>, m2: seq<int>, c: Chunks, top: int, p: int)
    requires SameTags(m0, m1, c, top, {}) && SameInside(m0, m1, c, p)
    requires SameTags(m1, m2, c, top, {}) && SameInside(m1, m2, c, p)
    ensures SameTags(m0, m2, c, top, {}) && SameInside(m0, m2, c, p)
  {
    forall a | a in c || a == top ensures SameTag(m0, m2, a) {
      assert SameTag(m0, m1, a) && SameTag(m1, m2, a);
    }
  }

  /** The neighbours of a listed chunk are nodes of the same list. */
  lemma NeighbourNodes(mem: seq<int>, c: Chunks, bins: seq<seq<int>>, i: int, k: int)
    requires Rings(mem, bins) && Lists(c, bins) && 1 <= i < NBINS && 0 <= k < |bins[i]|
    ensures Ring(mem, BinAt(i), bins[i]) && Distinct(bins[i]) && NodeOk(mem, BinAt(i), bins[i], k)
    ensures NodeOf(c, i, mem[bins[i][k] + 2]) && NodeOf(c, i, mem[bins[i][k] + 3])
  {
    assert Ring(mem, BinAt(i), bins[i]);
    assert NodeOk(mem, BinAt(i), bins[i], k);
    assert k > 0 ==> OnList(c, bins, i, k - 1);
    assert k + 1 < |bins[i]| ==> OnList(c, bins, i, k + 1);
  }

  /** The list of another bin keeps its links when link words of bin `i` are written. */
  lemma OtherRing(mem: seq<int>, c: Chunks, base: int, top: int, bins: seq<seq<int>>, i: int, z: int, y: int, v: int, j: int)
    requires Tiling(c, base, top) && ARENA <= base && Lists(c, bins)
    requires 1 <= i < NBINS && NodeOf(c, i, z) && (y == z + 2 || y == z + 3) && 0 <= y < |mem|
    requires 1 <= j < NBINS && j != i && Ring(mem, BinAt(j), bins[j])
    ensures Ring(mem[y := v], BinAt(j), bins[j])
  {
    forall k | 0 <= k < |bins[j]| ensures bins[j][k] != z && bins[j][k] % 2 == 0 {
      assert OnList(c, bins, j, k);
    }
    RingFrame(mem, mem[y := v], BinAt(j), bins[j]);
  }

  lemma RingsUnlink(mem: seq<int>, c: Chunks, base: int, top: int, bins: seq<seq<int>>, i: int, k: int)
    requires Tiling(c, base, top) && ARENA <= base && Rings(mem, bins) && Lists(c, bins)
    requires 1 <= i < NBINS && 0 <= k < |bins[i]|
    ensures NodeOk(mem, BinAt(i), bins[i], k)
    ensures var fd, bk := mem[bins[i][k] + 2], mem[bins[i][k] + 3];
            && 0 <= fd < |mem| - 3 && 0 <= bk < |mem| - 3
            && mem[fd + 3] == bins[i][k] && mem[bk + 2] == bins[i][k]
            && Rings(Unlinked(mem, fd, bk), bins[i := Without(bins[i], k)])
            && SameTags(mem, Unlinked(mem, fd, bk), c, top, {}) && SameInside(mem, Unlinked(mem, fd, bk), c, -1)
  {
    hide Tiling, Lists, NodeOf, SameTags, SameInside;
    NeighbourNodes(mem, c, bins, i, k);
    RingUnlink(mem, BinAt(i), bins[i], k);
    var fd, bk := mem[bins[i][k] + 2], mem[bins[i][k] + 3];
    var m1 := mem[fd + 3 := bk];
    LinkWrite(mem, c, base, top, i, fd, fd + 3, bk);
    LinkWrite(m1, c, base, top, i, bk, bk + 2, fd);
    SameTrans(mem, m1, Unlinked(mem, fd, bk), c, top, -1);
    forall j | 1 <= j < NBINS && j != i ensures Ring(Unlinked(mem, fd, bk), BinAt(j), bins[j]) {
      OtherRing(mem, c, base, top, bins, i, fd, fd + 3, bk, j);
      OtherRing(m1, c, base, top, bins, i, bk, bk + 2, fd, j);
    }
  }

  lemma RingsInsert(mem: seq<int>, c: Chunks, base: int, top: int, bins: seq<seq<int>>, i: int, k: int, p: int)
    requires Tiling(c, base, top) && ARENA <= base && top < |mem| && Rings(mem, bins) && Lists(c, bins)
    requires 1 <= i < NBINS && 0 <= k <= |bins[i]|
    requires p in c && !c[p].kind.Binned?
    ensures var s := bins[i];
            var fwd := if k < |s| then s[k] else BinAt(i);
            var bck := if k > 0 then s[k - 1] else BinAt(i);
            && 0 <= fwd < |mem| - 3 && 0 <= bck < |mem| - 3
            && Rings(Inserted(mem, p, bck, fwd), bins[i := With(s, k, p)])
            && SameTags(mem, Inserted(mem, p, bck, fwd), c, top, {}) && SameInside(mem, Inserted(mem, p, bck, fwd), c, p)
  {
    hide Tiling, Lists, NodeOf, SameTags, SameInside;
    InsertPosition(mem, c, base, top, bins, i, k, p);
    RingInsert(mem, BinAt(i), bins[i], k, p);
    var s := bins[i];
    var fwd := if k < |s| then s[k] else BinAt(i);
    var bck := if k > 0 then s[k - 1] else BinAt(i);
    var m2 := mem[p + 3 := bck][p + 2 := fwd];
    var m3 := m2[bck + 2 := p];
    var m4 := m3[fwd + 3 := p];
    OwnLinks(mem, c, base, top, bins, p, fwd, bck);
    LinkWrite(m2, c, base, top, i, bck, bck + 2, p);
    LinkWrite(m3, c, base, top, i, fwd, fwd + 3, p);
    SameWeaken(m2, m3, c, p);
    SameWeaken(m3, m4, c, p);
    SameTrans(mem, m2, m3, c, top, p);
    SameTrans(mem, m3, m4, c, top, p);
    forall j | 1 <= j < NBINS && j != i ensures Ring(m4, BinAt(j), bins[j]) {
      OtherRing(m2, c, base, top, bins, i, bck, bck + 2, p, j);
      OtherRing(m3, c, base, top, bins, i, fwd, fwd + 3, p, j);
    }
  }

  lemma SameWeaken(mem: seq<int>, mem': seq<int>, c: Chunks, p: int)
    requires SameInside(mem, mem', c, -1) && (forall a | a in c :: a >= 0)
    ensures SameInside(mem, mem', c, p)
  {
  }

  lemma InsertPosition(mem: seq<int>, c: Chunks, base: int, top: int, bins: seq<seq<int>>, i: int, k: int, p: int)
    requires Tiling(c, base, top) && ARENA <= base && top < |mem| && Rings(mem, bins) && Lists(c, bins)
    requires 1 <= i < NBINS && 0 <= k <= |bins[i]|
    requires p in c && !c[p].kind.Binned?
    ensures Ring(mem, BinAt(i), bins[i]) && Distinct(bins[i])
    ensures 0 <= p < |mem| - 3 && p % 2 == 0 && p != BinAt(i) && p !in bins[i]
    ensures k > 0 ==> NodeOf(c, i, bins[i][k - 1])
    ensures k < |bins[i]| ==> NodeOf(c, i, bins[i][k])
    ensures NodeOf(c, i, BinAt(i))
    ensures forall a | a in c :: a >= 0
  {
    assert Ring(mem, BinAt(i), bins[i]);
    assert k > 0 ==> OnList(c, bins, i, k - 1);
    assert k < |bins[i]| ==> OnList(c, bins, i, k);
    assert p !in bins[i] by {
      forall j | 0 <= j < |bins[i]| ensures bins[i][j] != p { assert OnList(c, bins, i, j); }
    }
  }

  /** A chunk in use may have its own first two words overwritten: no list and no tag sees it. */
  lemma OwnLinks(mem: seq<int>, c: Chunks, base: int, top: int, bins: seq<seq<int>>, p: int, v2: int, v3: int)
    requires Tiling(c, base, top) && ARENA <= base && top < |mem| && Rings(mem, bins) && Lists(c, bins)
    requires p in c && !c[p].kind.Binned? && 0 <= p < |mem| - 3
    ensures var mem' := mem[p + 3 := v3][p + 2 := v2];
            && Rings(mem', bins) && SameTags(mem, mem', c, top, {}) && SameInside(mem, mem', c, p)
  {
    var mem' := mem[p + 3 := v3][p + 2 := v2];
    forall a | a in c || a == top ensures SameTag(mem, mem', a) {
    }
    assert SameInside(mem, mem', c, p);
    forall j | 1 <= j < NBINS ensures Ring(mem', BinAt(j), bins[j]) {
      forall k | 0 <= k < |bins[j]| ensures bins[j][k] != p && bins[j][k] % 2 == 0 {
        assert OnList(c, bins, j, k);
      }
      RingFrame(mem, mem', BinAt(j), bins[j]);
    }
  }

  // ---------- membership ----------

  lemma ListsTaken(c: Chunks, bins: seq<seq<int>>, i: int, k: int)
    requires Lists(c, bins) && 1 <= i < NBINS && 0 <= k < |bins[i]|
    ensures bins[i][k] in c
    ensures Lists(Taken(c, bins[i][k]), bins[i := Without(bins[i], k)])
  {
    assert OnList(c, bins, i, k);
    var v := bins[i][k];
    var c', s, bins' := Taken(c, v), bins[i], bins[i := Without(bins[i], k)];
    forall j, l | 1 <= j < NBINS && 0 <= l < |bins'[j]| ensures OnList(c', bins', j, l) {
      assert OnList(c, bins, j, if j == i && l >= k then l + 1 else l);
    }
    forall a | a in c' && c'[a].kind.Binned? ensures a in bins'[c'[a].kind.bin] {
      var m :| 0 <= m < |bins[c[a].kind.bin]| && bins[c[a].kind.bin][m] == a;
      if c[a].kind.bin == i {
        assert Without(s, k)[if m < k then m else m - 1] == a;
      }
    }
  }

  ghost function Listed(c: Chunks, p: int, i: nat): Chunks
    requires p in c
  {
    c[p := Chunk(c[p].n, Binned(i))]
  }

  lemma ListsInserted(c: Chunks, bins: seq<seq<int>>, i: nat, k: int, p: int)
    requires Lists(c, bins) && 1 <= i < NBINS && 0 <= k <= |bins[i]| && p in c && !c[p].kind.Binned?
    ensures Lists(Listed(c, p, i), bins[i := With(bins[i], k, p)])
  {
    var c', s, bins' := Listed(c, p, i), bins[i], bins[i := With(bins[i], k, p)];
    forall j, l | 1 <= j < NBINS && 0 <= l < |bins'[j]| ensures OnList(c', bins', j, l) {
      if !(j == i && l == k) {
        assert OnList(c, bins, j, if j == i && l > k then l - 1 else l);
      }
    }
    assert Distinct(bins'[i]) by {
      forall l | 0 <= l < |s| ensures s[l] != p { assert OnList(c, bins, i, l); }
    }
    forall a | a in c' && c'[a].kind.Binned? ensures a in bins'[c'[a].kind.bin] {
      if a == p {
        assert bins'[i][k] == p;
      } else {
        var m :| 0 <= m < |bins[c[a].kind.bin]| && bins[c[a].kind.bin][m] == a;
        if c[a].kind.bin == i { assert bins'[i][if m < k then m else m + 1] == a; }
      }
    }
  }

  /** The same chunks are free, on the same lists. */
  ghost predicate SameListed(c: Chunks, c': Chunks) {
    && (forall a | a in c && c[a].kind.Binned? :: a in c' && c'[a].kind == c[a].kind)
    && (forall a | a in c' && c'[a].kind.Binned? :: a in c && c[a].kind == c'[a].kind)
  }

  lemma ListsTransfer(c: Chunks, c': Chunks, bins: seq<seq<int>>)
    requires Lists(c, bins) && SameListed(c, c')
    ensures Lists(c', bins)
  {
    forall j, l | 1 <= j < NBINS && 0 <= l < |bins[j]| ensures OnList(c', bins, j, l) {
      assert OnList(c, bins, j, l);
      var a := bins[j][l];
      assert a in c && c[a].kind.Binned?;
      assert a in c';
    }
  }
}

/** Chunks and their boundary tags.

    Memory is a sequence of words; an address is an index into it.  The chunk at address `a`
    keeps the size of its predecessor in word `a` (only while that predecessor is free), its
    own size and the PREV_INUSE bit in word `a + 1`, and its list links in words `a + 2` and
    `a + 3` (only while it is free).  Sizes are in words; chunks start at even addresses.

    The map `c` says which chunks there are.  It is what the words are proved to represent.
 */
module HeapTags {

  datatype Kind = Live | Fast(slot: nat) | Binned(bin: nat)

  datatype Chunk = Chunk(n: int, kind: Kind)

  type Chunks = map<int, Chunk>

  const MINWORDS := 4

  // ---------- head words ----------

  function Head(n: int, pinuse: bool): int { 2 * n + if pinuse then 1 else 0 }

  function SizeOf(h: int): int { h / 2 }

  predicate Pinuse(h: int) { h % 2 == 1 }

  function SetPinuse(h: int): int { if Pinuse(h) then h else h + 1 }

  // ---------- the chunks tile the region [base, top) ----------

  ghost function Succ(c: Chunks, a: int): int
    requires a in c
  {
    a + c[a].n
  }

  ghost predicate Shape(c: Chunks, base: int, top: int) {
    && base % 2 == 0 && top % 2 == 0 && base <= top
    && forall a | a in c ::
         base <= a && a % 2 == 0 && c[a].n % 2 == 0 && MINWORDS <= c[a].n && a + c[a].n <= top
  }

  ghost predicate Disjoint(c: Chunks) {
    forall a, b | a in c && b in c && a < b :: a + c[a].n <= b
  }

  ghost predicate Linked(c: Chunks, base: int, top: int) {
    && (base == top || base in c)
    && forall a {:trigger Succ(c, a)} | a in c :: Succ(c, a) == top || Succ(c, a) in c
  }

  ghost predicate Tiling(c: Chunks, base: int, top: int) {
    Shape(c, base, top) && Disjoint(c) && Linked(c, base, top)
  }

  /** No free chunk borders another one, or the top. */
  ghost predicate Coalesced(c: Chunks) {
    forall a {:trigger Succ(c, a)} | a in c && c[a].kind.Binned? ::
      Succ(c, a) in c && !c[Succ(c, a)].kind.Binned?
  }

  // ---------- the tags tell the truth ----------

  /** The head of `a`, and what its successor's words say about it. */
  ghost predicate HeadOk(mem: seq<int>, c: Chunks, a: int)
    requires a in c
  {
    var e := Succ(c, a);
    && 0 <= a < e < |mem| - 1
    && SizeOf(mem[a + 1]) == c[a].n
    && Pinuse(mem[e + 1]) == !c[a].kind.Binned?
    && (c[a].kind.Binned? ==> mem[e] == c[a].n)
  }

  /** A clear PREV_INUSE bit leads to the free chunk before `a`. */
  ghost predicate PrevOk(mem: seq<int>, c: Chunks, a: int) {
    0 <= a < |mem| - 1 && !Pinuse(mem[a + 1]) ==>
      && a - mem[a] in c
      && c[a - mem[a]].kind.Binned?
      && c[a - mem[a]].n == mem[a]
  }

  ghost predicate Tags(mem: seq<int>, c: Chunks) {
    && (forall a {:trigger HeadOk(mem, c, a)} | a in c :: HeadOk(mem, c, a))
    && (forall a {:trigger PrevOk(mem, c, a)} | a in c :: PrevOk(mem, c, a))
  }

  /** The two words a chunk at `a` keeps its tags in are the same. */
  ghost predicate SameTag(mem: seq<int>, mem': seq<int>, a: int) {
    0 <= a < |mem| - 1 && |mem'| == |mem| ==> mem'[a] == mem[a] && mem'[a + 1] == mem[a + 1]
  }

  ghost predicate SameTags(mem: seq<int>, mem': seq<int>, c: Chunks, top: int, except: set<int>) {
    && |mem'| == |mem|
    && (forall a {:trigger SameTag(mem, mem', a)} | (a in c || a == top) && a !in except :: SameTag(mem, mem', a))
  }

  // ---------- the walk from base to top ----------

  /** A boundary-tag walk: reading only head words, from `a` on. */
  ghost predicate Walk(c: Chunks, a: int, top: int, s: seq<int>)
    decreases |s|
  {
    if s == [] then a == top
    else s[0] == a && a in c && Walk(c, a + c[a].n, top, s[1..])
  }

  /** The chunks between `a` and the top are exactly those met by the walk from `a`. */
  lemma {:induction false} WalkFrom(c: Chunks, base: int, top: int, a: int) returns (s: seq<int>)
    requires Tiling(c, base, top) && (a in c || a == top)
    ensures Walk(c, a, top, s)
    ensures forall b | b in c && a <= b :: b in s
    decreases top - a
  {
    if a == top {
      s := [];
    } else {
      var t := WalkFrom(c, base, top, Succ(c, a));
      s := [a] + t;
      assert s[1..] == t;
    }
  }

  /** The walk from the base visits every chunk and ends at the top: the region is tiled. */
  lemma WalkVisitsAll(c: Chunks, base: int, top: int) returns (s: seq<int>)
    requires Tiling(c, base, top)
    ensures Walk(c, base, top, s)
    ensures forall b | b in c :: b in s
  {
    s := WalkFrom(c, base, top, base);
  }

  // ---------- a change of kind ----------

  ghost predicate SameSizes(c: Chunks, c': Chunks) {
    c'.Keys == c.Keys && forall a | a in c :: c'[a].n == c[a].n
  }

  ghost predicate SameFree(c: Chunks, c': Chunks) {
    SameSizes(c, c') && forall a | a in c :: c'[a].kind.Binned? == c[a].kind.Binned?
  }

  lemma TilingSameSizes(c: Chunks, c': Chunks, base: int, top: int)
    requires Tiling(c, base, top) && SameSizes(c, c')
    ensures Tiling(c', base, top)
  {
    forall a | a in c' ensures Succ(c', a) == top || Succ(c', a) in c' {
      assert Succ(c, a) == top || Succ(c, a) in c;
    }
  }

  /** Which list a free chunk is on, or whether a used one is on a fast list, is not in the tags. */
  lemma TagsSameFree(mem: seq<int>, c: Chunks, c': Chunks)
    requires Coalesced(c) && Tags(mem, c) && SameFree(c, c')
    ensures Coalesced(c') && Tags(mem, c')
  {
    forall a | a in c' && c'[a].kind.Binned? ensures Succ(c', a) in c' && !c'[Succ(c', a)].kind.Binned? {
      assert Succ(c, a) in c && !c[Succ(c, a)].kind.Binned?;
    }
    forall a | a in c' ensures HeadOk(mem, c', a) {
      assert HeadOk(mem, c, a);
    }
    forall a | a in c' ensures PrevOk(mem, c', a) {
      assert PrevOk(mem, c, a);
    }
  }

  /** Words that are nobody's tags may change freely. */
  lemma TagsFrame(mem: seq<int>, mem': seq<int>, c: Chunks, base: int, top: int)
    requires Linked(c, base, top) && Tags(mem, c) && SameTags(mem, mem', c, top, {})
    ensures Tags(mem', c)
  {
    forall a | a in c ensures HeadOk(mem', c, a) {
      assert HeadOk(mem, c, a);
      assert SameTag(mem, mem', a) && SameTag(mem, mem', Succ(c, a));
    }
    forall a | a in c ensures PrevOk(mem', c, a) {
      assert HeadOk(mem, c, a) && PrevOk(mem, c, a) && SameTag(mem, mem', a);
    }
  }

  // ---------- taking a free chunk whole ----------

  ghost function Taken(c: Chunks, v: int): Chunks
    requires v in c
  {
    c[v := Chunk(c[v].n, Live)]
  }

  lemma CoalescedTaken(c: Chunks, v: int)
    requires Coalesced(c) && v in c
    ensures Coalesced(Taken(c, v))
  {
    var c' := Taken(c, v);
    forall a | a in c' && c'[a].kind.Binned? ensures Succ(c', a) in c' && !c'[Succ(c', a)].kind.Binned? {
      assert Succ(c, a) in c && !c[Succ(c, a)].kind.Binned?;
    }
  }

  lemma TagsTaken(mem: seq<int>, mem': seq<int>, c: Chunks, base: int, top: int, v: int)
    requires Tiling(c, base, top) && Coalesced(c) && Tags(mem, c)
    requires v in c && c[v].kind.Binned? && HeadOk(mem, c, v)
    requires SameTags(mem, mem', c, top, {Succ(c, v)})
    requires mem'[Succ(c, v) + 1] == SetPinuse(mem[Succ(c, v) + 1])
    ensures Tags(mem', Taken(c, v))
  {
    var c' := Taken(c, v);
    forall a | a in c' ensures HeadOk(mem', c', a) {
      assert HeadOk(mem, c, a);
      assert a != Succ(c, v) ==> SameTag(mem, mem', a);
      if a != v {
        assert Succ(c, a) != Succ(c, v);
        assert SameTag(mem, mem', Succ(c, a));
      }
    }
    forall a | a in c' ensures PrevOk(mem', c', a) {
      assert HeadOk(mem, c, a) && PrevOk(mem, c, a);
      assert a != Succ(c, v) ==> SameTag(mem, mem', a);
    }
  }

  // ---------- splitting a free chunk, the remainder staying free ----------

  ghost function Split(c: Chunks, v: int, nb: int): Chunks
    requires v in c
  {
    c[v := Chunk(nb, Live)][v + nb := Chunk(c[v].n - nb, Binned(1))]
  }

  /** The chunks of the result: the two parts, and those outside the chunk. */
  lemma SplitCases(c: Chunks, base: int, top: int, v: int, nb: int)
    requires Tiling(c, base, top) && v in c && 0 < nb < c[v].n
    ensures v + nb !in c
    ensures forall a | a in Split(c, v, nb) && a != v && a != v + nb ::
      a in c && Split(c, v, nb)[a] == c[a] && (a + c[a].n <= v || v + c[v].n <= a)
  {}

  lemma TilingSplit(c: Chunks, base: int, top: int, v: int, nb: int)
    requires Tiling(c, base, top) && v in c
    requires nb % 2 == 0 && MINWORDS <= nb && nb + MINWORDS <= c[v].n
    ensures Tiling(Split(c, v, nb), base, top)
  {
    hide Shape, Disjoint, Linked;
    SplitShape(c, base, top, v, nb);
    SplitDisjoint(c, base, top, v, nb);
    SplitLinked(c, base, top, v, nb);
  }

  lemma SplitShape(c: Chunks, base: int, top: int, v: int, nb: int)
    requires Tiling(c, base, top) && v in c
    requires nb % 2 == 0 && MINWORDS <= nb && nb + MINWORDS <= c[v].n
    ensures Shape(Split(c, v, nb), base, top)
  {
    hide Disjoint, Linked;
  }

  lemma SplitLinked(c: Chunks, base: int, top: int, v: int, nb: int)
    requires Tiling(c, base, top) && v in c && 0 < nb < c[v].n
    ensures Linked(Split(c, v, nb), base, top)
  {
    hide Shape, Disjoint;
    SplitCases(c, base, top, v, nb);
    var c' := Split(c, v, nb);
    forall a | a in c' ensures Succ(c', a) == top || Succ(c', a) in c' {
      if a in c { assert Succ(c, a) == top || Succ(c, a) in c; }
      assert Succ(c, v) == top || Succ(c, v) in c;
    }
  }

  lemma SplitDisjoint(c: Chunks, base: int, top: int, v: int, nb: int)
    requires Tiling(c, base, top) && v in c && 0 < nb < c[v].n
    ensures Disjoint(Split(c, v, nb))
  {
    hide Linked;
    SplitCases(c, base, top, v, nb);
  }

  lemma CoalescedSplit(c: Chunks, base: int, top: int, v: int, nb: int)
    requires Tiling(c, base, top) && Coalesced(c) && v in c && c[v].kind.Binned?
    requires nb % 2 == 0 && MINWORDS <= nb && nb + MINWORDS <= c[v].n
    ensures Coalesced(Split(c, v, nb))
  {
    var c' := Split(c, v, nb);
    assert v + nb !in c;
    assert Succ(c, v) in c && !c[Succ(c, v)].kind.Binned?;
    forall a | a in c' && c'[a].kind.Binned? ensures Succ(c', a) in c' && !c'[Succ(c', a)].kind.Binned? {
      if a in c { assert Succ(c, a) in c && !c[Succ(c, a)].kind.Binned?; }
    }
  }

  /** What the words of the two parts of a split chunk say. */
  ghost predicate SplitWords(mem: seq<int>, mem': seq<int>, c: Chunks, top: int, v: int, nb: int) {
    && v in c && c[v].kind.Binned? && HeadOk(mem, c, v)
    && nb % 2 == 0 && MINWORDS <= nb && nb + MINWORDS <= c[v].n
    && SameTags(mem, mem', c, top, {v, Succ(c, v)})
    && mem'[v + 1] == Head(nb, true)
    && mem'[v + nb + 1] == Head(c[v].n - nb, true)
    && mem'[Succ(c, v)] == c[v].n - nb && mem'[Succ(c, v) + 1] == mem[Succ(c, v) + 1]
  }

  lemma TagsSplit(mem: seq<int>, mem': seq<int>, c: Chunks, base: int, top: int, v: int, nb: int)
    requires Tiling(c, base, top) && Coalesced(c) && Tags(mem, c) && SplitWords(mem, mem', c, top, v, nb)
    ensures Tags(mem', Split(c, v, nb))
  {
    hide Tiling, Coalesced, HeadOk, PrevOk, Split;
    forall a | a in Split(c, v, nb) ensures HeadOk(mem', Split(c, v, nb), a) {
      SplitHead(mem, mem', c, base, top, v, nb, a);
    }
    forall a | a in Split(c, v, nb) ensures PrevOk(mem', Split(c, v, nb), a) {
      SplitPrev(mem, mem', c, base, top, v, nb, a);
    }
  }

  lemma SplitHead(mem: seq<int>, mem': seq<int>, c: Chunks, base: int, top: int, v: int, nb: int, a: int)
    requires Tiling(c, base, top) && Coalesced(c) && Tags(mem, c) && SplitWords(mem, mem', c, top, v, nb) && a in Split(c, v, nb)
    ensures HeadOk(mem', Split(c, v, nb), a)
  {
    var e := Succ(c, v);
    if a in c && a != v {
      assert HeadOk(mem, c, a);
      assert a != e ==> SameTag(mem, mem', a);
      assert Succ(c, a) != e;
      assert Succ(c, a) != v ==> SameTag(mem, mem', Succ(c, a));
      if Succ(c, a) == v { assert !c[a].kind.Binned?; }
    }
  }

  lemma SplitPrev(mem: seq<int>, mem': seq<int>, c: Chunks, base: int, top: int, v: int, nb: int, a: int)
    requires Tiling(c, base, top) && Tags(mem, c) && SplitWords(mem, mem', c, top, v, nb) && a in Split(c, v, nb)
    ensures PrevOk(mem', Split(c, v, nb), a)
  {
    var e := Succ(c, v);
    if a in c {
      assert HeadOk(mem, c, a) && PrevOk(mem, c, a);
      assert a != v && a != e ==> SameTag(mem, mem', a);
      assert a == e ==> a - mem'[a] == v + nb;
    }
  }

  // ---------- the top chunk ----------

  /** The chunk at the end of memory: not on any list, its predecessor always in use. */
  ghost predicate TopOk(mem: seq<int>, top: int, n: int) {
    0 <= top < |mem| - 1 && mem[top + 1] == Head(n, true)
  }

  ghost function Carved(c: Chunks, top: int, nb: int): Chunks {
    c[top := Chunk(nb, Live)]
  }

  lemma TilingCarved(c: Chunks, base: int, top: int, nb: int)
    requires Tiling(c, base, top) && Coalesced(c) && nb % 2 == 0 && MINWORDS <= nb
    ensures Tiling(Carved(c, top, nb), base, top + nb) && Coalesced(Carved(c, top, nb))
  {
    var c' := Carved(c, top, nb);
    assert top !in c;
    forall a | a in c' ensures Succ(c', a) == top + nb || Succ(c', a) in c' {
      if a in c { assert Succ(c, a) == top || Succ(c, a) in c; }
    }
    forall a | a in c' && c'[a].kind.Binned? ensures Succ(c', a) in c' && !c'[Succ(c', a)].kind.Binned? {
      assert Succ(c, a) in c && !c[Succ(c, a)].kind.Binned?;
    }
  }

  lemma TagsCarved(mem: seq<int>, mem': seq<int>, c: Chunks, base: int, top: int, nb: int, rest: int)
    requires Tiling(c, base, top) && Coalesced(c) && Tags(mem, c)
    requires 0 <= base && nb % 2 == 0 && MINWORDS <= nb && TopOk(mem', top + nb, rest)
    requires SameTags(mem, mem', c, top, {top})
    requires mem'[top + 1] == Head(nb, true)
    ensures Tags(mem', Carved(c, top, nb))
  {
    var c' := Carved(c, top, nb);
    forall a | a in c' ensures HeadOk(mem', c', a) {
      if a in c {
        assert HeadOk(mem, c, a);
        assert SameTag(mem, mem', a);
        assert Succ(c, a) != top ==> SameTag(mem, mem', Succ(c, a));
      }
    }
    forall a | a in c' ensures PrevOk(mem', c', a) {
      if a in c {
        assert HeadOk(mem, c, a) && PrevOk(mem, c, a) && SameTag(mem, mem', a);
      }
    }
  }

  // ---------- fusing the chunks of [p, e) into one free chunk, or into the top ----------

  ghost function Cut(c: Chunks, p: int, e: int): Chunks {
    map a | a in c && !(p <= a < e) :: c[a]
  }

  ghost function Fused(c: Chunks, p: int, e: int): Chunks {
    Cut(c, p, e)[p := Chunk(e - p, Binned(1))]
  }

  /** The chunk before `p`, if there is one, is in use. */
  ghost predicate UsedBefore(c: Chunks, p: int) {
    forall a {:trigger Succ(c, a)} | a in c && Succ(c, a) == p :: !c[a].kind.Binned?
  }

  /** The chunks of the result: the fused one, and those outside the range. */
  lemma FusedCases(c: Chunks, base: int, top: int, p: int, e: int)
    requires Tiling(c, base, top) && p in c && e in c && p < e
    ensures var c' := Fused(c, p, e);
      && p in c' && c'[p] == Chunk(e - p, Binned(1)) && e in c' && c'[e] == c[e]
      && (forall a | a in c && !(p < a < e) :: a in c')
      && (forall a | a in c' && a != p :: a in c && c'[a] == c[a] && (a + c[a].n <= p || e <= a))
    ensures p % 2 == 0 && e % 2 == 0 && base <= p && e <= top && p + c[p].n <= e
  {}

  lemma TilingFused(c: Chunks, base: int, top: int, p: int, e: int)
    requires Tiling(c, base, top) && Coalesced(c) && p in c && e in c && p < e
    requires UsedBefore(c, p) && !c[e].kind.Binned?
    ensures Tiling(Fused(c, p, e), base, top) && Coalesced(Fused(c, p, e))
  {
    hide Shape, Disjoint, Linked, Coalesced;
    FusedLinked(c, base, top, p, e);
    FusedDisjoint(c, base, top, p, e);
    FusedCoalesced(c, base, top, p, e);
  }

  lemma FusedLinked(c: Chunks, base: int, top: int, p: int, e: int)
    requires Tiling(c, base, top) && p in c && e in c && p < e
    ensures Shape(Fused(c, p, e), base, top) && Linked(Fused(c, p, e), base, top)
  {
    hide Fused, Disjoint;
    FusedCases(c, base, top, p, e);
    var c' := Fused(c, p, e);
    forall a | a in c' ensures Succ(c', a) == top || Succ(c', a) in c' {
      if a != p { assert Succ(c, a) == top || Succ(c, a) in c; }
    }
  }

  lemma FusedDisjoint(c: Chunks, base: int, top: int, p: int, e: int)
    requires Tiling(c, base, top) && p in c && e in c && p < e
    ensures Disjoint(Fused(c, p, e))
  {
    hide Fused, Linked;
    FusedCases(c, base, top, p, e);
  }

  lemma FusedCoalesced(c: Chunks, base: int, top: int, p: int, e: int)
    requires Tiling(c, base, top) && Coalesced(c) && p in c && e in c && p < e
    requires UsedBefore(c, p) && !c[e].kind.Binned?
    ensures Coalesced(Fused(c, p, e))
  {
    hide Fused, Disjoint, Linked;
    FusedCases(c, base, top, p, e);
    var c' := Fused(c, p, e);
    forall a | a in c' && c'[a].kind.Binned? ensures Succ(c', a) in c' && !c'[Succ(c', a)].kind.Binned? {
      if a != p { assert Succ(c, a) in c && !c[Succ(c, a)].kind.Binned?; }
    }
  }

  /** What the words of the fused chunk say. */
  ghost predicate FusedWords(mem: seq<int>, mem': seq<int>, c: Chunks, top: int, p: int, e: int) {
    && p in c && e in c && p < e && UsedBefore(c, p) && !c[e].kind.Binned?
    && 0 <= p && e + 1 < |mem|
    && SameTags(mem, mem', Cut(c, p, e), top, {e})
    && mem'[p + 1] == Head(e - p, true)
    && mem'[e] == e - p && mem'[e + 1] == Head(c[e].n, false)
  }

  lemma TagsFused(mem: seq<int>, mem': seq<int>, c: Chunks, base: int, top: int, p: int, e: int)
    requires Tiling(c, base, top) && Coalesced(c) && Tags(mem, c) && FusedWords(mem, mem', c, top, p, e)
    ensures Tags(mem', Fused(c, p, e))
  {
    hide Tiling, Coalesced, HeadOk, PrevOk, Fused;
    forall a | a in Fused(c, p, e) ensures HeadOk(mem', Fused(c, p, e), a) {
      FusedHead(mem, mem', c, base, top, p, e, a);
    }
    forall a | a in Fused(c, p, e) ensures PrevOk(mem', Fused(c, p, e), a) {
      FusedPrev(mem, mem', c, base, top, p, e, a);
    }
  }

  lemma FusedHead(mem: seq<int>, mem': seq<int>, c: Chunks, base: int, top: int, p: int, e: int, a: int)
    requires Tiling(c, base, top) && Tags(mem, c) && FusedWords(mem, mem', c, top, p, e) && a in Fused(c, p, e)
    ensures HeadOk(mem', Fused(c, p, e), a)
  {
    hide Fused;
    FusedCases(c, base, top, p, e);
    if a != p {
      assert HeadOk(mem, c, a);
      assert a != e ==> SameTag(mem, mem', a);
      assert Succ(c, a) == top || Succ(c, a) in c;
      assert Succ(c, a) != e;
      assert Succ(c, a) != p ==> SameTag(mem, mem', Succ(c, a));
    }
  }

  lemma FusedPrev(mem: seq<int>, mem': seq<int>, c: Chunks, base: int, top: int, p: int, e: int, a: int)
    requires Tiling(c, base, top) && Tags(mem, c) && FusedWords(mem, mem', c, top, p, e) && a in Fused(c, p, e)
    ensures PrevOk(mem', Fused(c, p, e), a)
  {
    hide Fused;
    FusedCases(c, base, top, p, e);
    if a != p && a != e {
      assert HeadOk(mem, c, a) && PrevOk(mem, c, a) && SameTag(mem, mem', a);
      if !Pinuse(mem[a + 1]) {
        assert Succ(c, a - mem[a]) == a;
      }
    }
  }

  lemma TilingCut(c: Chunks, base: int, top: int, p: int)
    requires Tiling(c, base, top) && Coalesced(c) && p in c && UsedBefore(c, p)
    ensures Tiling(Cut(c, p, top), base, p) && Coalesced(Cut(c, p, top))
  {
    var c' := Cut(c, p, top);
    forall a | a in c' ensures Succ(c', a) == p || Succ(c', a) in c' {
      assert Succ(c, a) == top || Succ(c, a) in c;
    }
    forall a | a in c' && c'[a].kind.Binned? ensures Succ(c', a) in c' && !c'[Succ(c', a)].kind.Binned? {
      assert Succ(c, a) in c && !c[Succ(c, a)].kind.Binned?;
    }
  }

  lemma TagsCut(mem: seq<int>, mem': seq<int>, c: Chunks, base: int, top: int, p: int, n: int)
    requires Tiling(c, base, top) && Coalesced(c) && Tags(mem, c) && p in c && UsedBefore(c, p)
    requires TopOk(mem', p, n)
    requires SameTags(mem, mem', Cut(c, p, top), p, {p})
    ensures Tags(mem', Cut(c, p, top))
  {
    var c' := Cut(c, p, top);
    forall a | a in c' ensures HeadOk(mem', c', a) {
      assert HeadOk(mem, c, a);
      assert SameTag(mem, mem', a);
      assert Succ(c, a) == top || Succ(c, a) in c;
      assert Succ(c, a) != p ==> SameTag(mem, mem', Succ(c, a));
    }
    forall a | a in c' ensures PrevOk(mem', c', a) {
      assert HeadOk(mem, c, a) && PrevOk(mem, c, a) && SameTag(mem, mem', a);
    }
  }

  // ---------- one chunk in use over [p, e), possibly with a remainder ----------

  ghost function Resized(c: Chunks, p: int, e: int, n: int): Chunks {
    var d := Cut(c, p, e)[p := Chunk(n, Live)];
    if p + n == e then d else d[p + n := Chunk(e - p - n, Live)]
  }

  ghost predicate ResizeOk(c: Chunks, top: int, p: int, e: int, n: int) {
    && p in c && c[p].kind == Live && p < e && (e in c || e == top)
    && n % 2 == 0 && MINWORDS <= n && (p + n == e || p + n + MINWORDS <= e)
  }

  /** The chunks of the result: the resized one, the remainder, and those outside the range. */
  lemma ResizedCases(c: Chunks, base: int, top: int, p: int, e: int, n: int)
    requires Tiling(c, base, top) && ResizeOk(c, top, p, e, n)
    ensures var c' := Resized(c, p, e, n);
            && p in c' && c'[p] == Chunk(n, Live)
            && (p + n < e ==> p + n in c' && c'[p + n] == Chunk(e - p - n, Live))
            && (forall a | a in c && !(p < a < e) :: a in c')
            && (forall a | a in c' && a != p && a != p + n :: a in c && c'[a] == c[a] && (a < p ==> a + c[a].n <= p) && (a < p || e <= a))
            && (p + n == e && e in c' ==> e in c && c'[e] == c[e])
            && p % 2 == 0 && e % 2 == 0 && base <= p && e <= top
  {
  }

  lemma TilingResized(c: Chunks, base: int, top: int, p: int, e: int, n: int)
    requires Tiling(c, base, top) && ResizeOk(c, top, p, e, n)
    ensures Tiling(Resized(c, p, e, n), base, top)
  {
    hide Shape, Disjoint, Linked;
    ResizedShape(c, base, top, p, e, n);
    ResizedDisjoint(c, base, top, p, e, n);
    ResizedLinked(c, base, top, p, e, n);
  }

  lemma ResizedShape(c: Chunks, base: int, top: int, p: int, e: int, n: int)
    requires Tiling(c, base, top) && ResizeOk(c, top, p, e, n)
    ensures Shape(Resized(c, p, e, n), base, top)
  {
    hide Resized, Disjoint, Linked;
    ResizedCases(c, base, top, p, e, n);
    var c' := Resized(c, p, e, n);
    assert MINWORDS <= e - p && (p + n < e ==> MINWORDS <= e - p - n);
    forall a | a in c'
      ensures base <= a && a % 2 == 0 && c'[a].n % 2 == 0 && MINWORDS <= c'[a].n && a + c'[a].n <= top
    {
      if a == p {
      } else if a == p + n && p + n < e {
        assert c'[a].n == e - (p + n);
      } else {
        assert a in c && c'[a] == c[a];
      }
    }
  }

  lemma ResizedLinked(c: Chunks, base: int, top: int, p: int, e: int, n: int)
    requires Tiling(c, base, top) && ResizeOk(c, top, p, e, n)
    ensures Linked(Resized(c, p, e, n), base, top)
  {
    hide Resized, Disjoint;
    ResizedCases(c, base, top, p, e, n);
    var c' := Resized(c, p, e, n);
    forall a | a in c' ensures Succ(c', a) == top || Succ(c', a) in c' {
      if a != p && (a != p + n || p + n == e) { assert Succ(c, a) == top || Succ(c, a) in c; }
    }
  }

  lemma ResizedDisjoint(c: Chunks, base: int, top: int, p: int, e: int, n: int)
    requires Tiling(c, base, top) && ResizeOk(c, top, p, e, n)
    ensures Disjoint(Resized(c, p, e, n))
  {
    hide Resized, Linked;
    ResizedCases(c, base, top, p, e, n);
  }

  lemma CoalescedResized(c: Chunks, base: int, top: int, p: int, e: int, n: int)
    requires Tiling(c, base, top) && Coalesced(c) && ResizeOk(c, top, p, e, n)
    ensures Coalesced(Resized(c, p, e, n))
  {
    hide Resized, Disjoint;
    ResizedCases(c, base, top, p, e, n);
    var c' := Resized(c, p, e, n);
    forall a | a in c' && c'[a].kind.Binned? ensures Succ(c', a) in c' && !c'[Succ(c', a)].kind.Binned? {
      assert Succ(c, a) in c && !c[Succ(c, a)].kind.Binned?;
    }
  }

  lemma TagsResized(mem: seq<int>, mem': seq<int>, c: Chunks, base: int, top: int, p: int, e: int, n: int)
    requires Tiling(c, base, top) && Coalesced(c) && Tags(mem, c) && ResizeOk(c, top, p, e, n)
    requires 0 <= base && top + 1 < |mem|
    requires SameTags(mem, mem', Cut(c, p, e), top, {e})
    requires mem'[p] == mem[p] && mem'[p + 1] == Head(n, Pinuse(mem[p + 1]))
    requires mem'[e + 1] == SetPinuse(mem[e + 1])
    requires p + n < e ==> mem'[p + n + 1] == Head(e - p - n, true)
    ensures Tags(mem', Resized(c, p, e, n))
  {
    hide Resized, Linked;
    ResizedCases(c, base, top, p, e, n);
    var c' := Resized(c, p, e, n);
    forall a | a in c' ensures HeadOk(mem', c', a) {
      if a != p && (a != p + n || p + n == e) { ResizedHead(mem, mem', c, base, top, p, e, n, a); }
    }
    forall a | a in c' ensures PrevOk(mem', c', a) {
      if a == p || a != p + n || p + n == e { ResizedPrev(mem, mem', c, base, top, p, e, n, a); }
    }
  }

  lemma ResizedHead(mem: seq<int>, mem': seq<int>, c: Chunks, base: int, top: int, p: int, e: int, n: int, a: int)
    requires Tiling(c, base, top) && Tags(mem, c) && ResizeOk(c, top, p, e, n) && 0 <= base && top + 1 < |mem|
    requires SameTags(mem, mem', Cut(c, p, e), top, {e})
    requires mem'[p + 1] == Head(n, Pinuse(mem[p + 1])) && mem'[e + 1] == SetPinuse(mem[e + 1]) && mem'[p] == mem[p]
    requires a in c && a in Resized(c, p, e, n) && Resized(c, p, e, n)[a] == c[a] && (a < p || e <= a)
    ensures HeadOk(mem', Resized(c, p, e, n), a)
  {
    hide Resized;
    assert HeadOk(mem, c, a) && HeadOk(mem, c, p);
    assert a != e ==> SameTag(mem, mem', a);
    assert Succ(c, a) == top || Succ(c, a) in c;
    assert Succ(c, a) != e && (Succ(c, a) <= p || e < Succ(c, a));
    assert Succ(c, a) != p ==> SameTag(mem, mem', Succ(c, a));
  }

  lemma ResizedPrev(mem: seq<int>, mem': seq<int>, c: Chunks, base: int, top: int, p: int, e: int, n: int, a: int)
    requires Tiling(c, base, top) && Tags(mem, c) && ResizeOk(c, top, p, e, n) && 0 <= base && top + 1 < |mem|
    requires SameTags(mem, mem', Cut(c, p, e), top, {e})
    requires mem'[p + 1] == Head(n, Pinuse(mem[p + 1])) && mem'[e + 1] == SetPinuse(mem[e + 1]) && mem'[p] == mem[p]
    requires a in c && !(p < a < e)
    ensures PrevOk(mem', Resized(c, p, e, n), a)
  {
    hide Resized, Disjoint, Linked;
    ResizedCases(c, base, top, p, e, n);
    if a != e {
      assert HeadOk(mem, c, a);
      if !Pinuse(mem[a + 1]) { PrevOutside(mem, c, base, top, p, e, a); }
      assert a != p ==> SameTag(mem, mem', a);
    }
  }

  /** The free chunk before `a` is outside a range that starts with a chunk in use. */
  lemma PrevOutside(mem: seq<int>, c: Chunks, base: int, top: int, p: int, e: int, a: int)
    requires Tiling(c, base, top) && Tags(mem, c) && p in c && !c[p].kind.Binned? && (e in c || e == top) && p < e
    requires a in c && !(p < a <= e) && 0 <= a < |mem| - 1 && !Pinuse(mem[a + 1])
    ensures var q := a - mem[a]; q in c && c[q].kind.Binned? && c[q].n == mem[a] && !(p <= q < e)
  {
    hide Linked, HeadOk;
    assert PrevOk(mem, c, a);
  }

  // ---------- a chunk in use grows into the top ----------

  ghost function Grown(c: Chunks, p: int, nb: int): Chunks {
    c[p := Chunk(nb, Live)]
  }

  lemma TilingGrown(c: Chunks, base: int, top: int, p: int, nb: int)
    requires Tiling(c, base, top) && Coalesced(c) && p in c && c[p].kind == Live && Succ(c, p) == top
    requires nb % 2 == 0 && c[p].n <= nb
    ensures Tiling(Grown(c, p, nb), base, p + nb) && Coalesced(Grown(c, p, nb))
  {
    var c' := Grown(c, p, nb);
    assert Disjoint(c') by {
      forall a, b | a in c' && b in c' && a < b ensures a + c'[a].n <= b { assert a + c[a].n <= b; }
    }
    forall a | a in c' ensures Succ(c', a) == p + nb || Succ(c', a) in c' { assert Succ(c, a) == top || Succ(c, a) in c; }
    forall a | a in c' && c'[a].kind.Binned? ensures Succ(c', a) in c' && !c'[Succ(c', a)].kind.Binned? {
      assert Succ(c, a) in c && !c[Succ(c, a)].kind.Binned?;
    }
  }

  /** What the words of the grown chunk say. */
  ghost predicate GrownWords(mem: seq<int>, mem': seq<int>, c: Chunks, top: int, p: int, nb: int, rest: int) {
    && p in c && c[p].kind == Live && Succ(c, p) == top && 0 <= p < |mem| - 1
    && c[p].n <= nb && TopOk(mem', p + nb, rest) && SameTags(mem, mem', c, top, {p, top})
    && mem'[p] == mem[p] && mem'[p + 1] == Head(nb, Pinuse(mem[p + 1]))
  }

  lemma TagsGrown(mem: seq<int>, mem': seq<int>, c: Chunks, base: int, top: int, p: int, nb: int, rest: int)
    requires Tiling(c, base, top) && Tags(mem, c) && 0 <= base && GrownWords(mem, mem', c, top, p, nb, rest)
    ensures Tags(mem', Grown(c, p, nb))
  {
    hide Tiling, HeadOk, PrevOk, GrownWords;
    forall a | a in Grown(c, p, nb) ensures HeadOk(mem', Grown(c, p, nb), a) {
      GrownHead(mem, mem', c, base, top, p, nb, rest, a);
    }
    forall a | a in Grown(c, p, nb) ensures PrevOk(mem', Grown(c, p, nb), a) {
      GrownPrev(mem, mem', c, base, top, p, nb, rest, a);
    }
  }

  lemma GrownHead(mem: seq<int>, mem': seq<int>, c: Chunks, base: int, top: int, p: int, nb: int, rest: int, a: int)
    requires Tiling(c, base, top) && Tags(mem, c) && 0 <= base && GrownWords(mem, mem', c, top, p, nb, rest) && a in Grown(c, p, nb)
    ensures HeadOk(mem', Grown(c, p, nb), a)
  {
    hide PrevOk;
    assert HeadOk(mem, c, p) && HeadOk(mem, c, a);
    assert a != p ==> SameTag(mem, mem', a);
    assert Succ(c, a) == top || Succ(c, a) in c;
    assert a != p && Succ(c, a) != p ==> SameTag(mem, mem', Succ(c, a));
  }

  lemma GrownPrev(mem: seq<int>, mem': seq<int>, c: Chunks, base: int, top: int, p: int, nb: int, rest: int, a: int)
    requires Tiling(c, base, top) && Tags(mem, c) && 0 <= base && GrownWords(mem, mem', c, top, p, nb, rest) && a in Grown(c, p, nb)
    ensures PrevOk(mem', Grown(c, p, nb), a)
  {
    hide Disjoint, Linked;
    assert HeadOk(mem, c, a) && PrevOk(mem, c, a);
    assert a != p ==> SameTag(mem, mem', a);
  }
}

/** The fast lists: chunks freed but still marked in use, singly linked through word 2. */
module HeapFast {
  import opened HeapTags
  import opened HeapSizes
  import opened HeapLists

  function FastbinIndex(b: int): int { b / 8 - 2 }

  function NFastbins(sz: Width): int { FastbinIndex(RequestToSize(sz, 80)) + 1 }

  function Bytes(sz: Width, n: int): int { if sz == 4 then 4 * n else 8 * n }

  ghost predicate LinkOk(mem: seq<int>, s: seq<int>, k: int)
    requires 0 <= k < |s|
  {
    0 <= s[k] < |mem| - 3 && mem[s[k] + 2] == if k + 1 < |s| then s[k + 1] else 0
  }

  ghost predicate Chain(mem: seq<int>, h: int, s: seq<int>) {
    && h == (if s == [] then 0 else s[0])
    && (forall k {:trigger LinkOk(mem, s, k)} | 0 <= k < |s| :: LinkOk(mem, s, k))
  }

  ghost predicate Chains(mem: seq<int>, heads: seq<int>, fasts: seq<seq<int>>) {
    && |heads| == |fasts|
    && (forall j {:trigger fasts[j]} | 0 <= j < |fasts| :: Chain(mem, heads[j], fasts[j]))
  }

  ghost predicate OnFast(c: Chunks, fasts: seq<seq<int>>, j: int, k: int)
    requires 0 <= j < |fasts| && 0 <= k < |fasts[j]|
  {
    fasts[j][k] in c && c[fasts[j][k]].kind == Fast(j)
  }

  ghost predicate FastLists(c: Chunks, fasts: seq<seq<int>>) {
    && (forall j {:trigger fasts[j]} | 0 <= j < |fasts| :: Distinct(fasts[j]))
    && (forall j, k {:trigger OnFast(c, fasts, j, k)} | 0 <= j < |fasts| && 0 <= k < |fasts[j]| :: OnFast(c, fasts, j, k))
    && (forall a | a in c && c[a].kind.Fast? :: c[a].kind.slot < |fasts| && a in fasts[c[a].kind.slot])
  }

  /** A chunk sits on the fast list of its size, and none is above the limit. */
  ghost predicate FastSizes(sz: Width, c: Chunks, maxFast: int) {
    forall a | a in c && c[a].kind.Fast? ::
      c[a].kind.slot == FastbinIndex(Bytes(sz, c[a].n)) && Bytes(sz, c[a].n) <= maxFast
  }

  /** Used chunks other than `p` are the same, and `p` is used in neither. */
  ghost predicate SameUsed(c: Chunks, c': Chunks, p: int) {
    && (forall a | a in c && !c[a].kind.Binned? && a != p :: a in c' && c'[a] == c[a])
    && (forall a | a in c' && !c'[a].kind.Binned? :: a in c && c[a] == c'[a] && a != p)
  }

  /** The same chunks are parked on the fast lists. */
  ghost predicate SameFast(c: Chunks, c': Chunks) {
    && (forall a | a in c && c[a].kind.Fast? :: a in c' && c'[a] == c[a])
    && (forall a | a in c' && c'[a].kind.Fast? :: a in c && c[a] == c'[a])
  }

  /** The link words of parked chunks are the same. */
  ghost predicate SameLinks(mem: seq<int>, mem': seq<int>, c: Chunks) {
    |mem'| == |mem| && forall a | a in c && c[a].kind.Fast? && 0 <= a + 2 < |mem| :: mem'[a + 2] == mem[a + 2]
  }

  lemma FastKeptLinks(sz: Width, mem: seq<int>, mem': seq<int>, c: Chunks, c': Chunks,
                      heads: seq<int>, fasts: seq<seq<int>>, maxFast: int)
    requires Chains(mem, heads, fasts) && FastLists(c, fasts) && FastSizes(sz, c, maxFast)
    requires SameLinks(mem, mem', c) && SameFast(c, c')
    ensures Chains(mem', heads, fasts) && FastLists(c', fasts) && FastSizes(sz, c', maxFast)
  {
    forall j, k | 0 <= j < |fasts| && 0 <= k < |fasts[j]| ensures OnFast(c', fasts, j, k) && LinkOk(mem', fasts[j], k) {
      assert OnFast(c, fasts, j, k);
      var a := fasts[j][k];
      assert Chain(mem, heads[j], fasts[j]) && LinkOk(mem, fasts[j], k);
      assert a in c && c[a].kind.Fast?;
    }
    forall j | 0 <= j < |fasts| ensures Chain(mem', heads[j], fasts[j]) {
      assert Chain(mem, heads[j], fasts[j]);
      forall k | 0 <= k < |fasts[j]| ensures LinkOk(mem', fasts[j], k) {
        assert OnFast(c', fasts, j, k);
      }
    }
  }

  /** Nothing that leaves the inside of used chunks alone can disturb the fast lists. */
  lemma FastKept(sz: Width, mem: seq<int>, mem': seq<int>, c: Chunks, c': Chunks, base: int, top: int,
                 heads: seq<int>, fasts: seq<seq<int>>, maxFast: int, p: int)
    requires Tiling(c, base, top) && top < |mem| && 0 <= base
    requires Chains(mem, heads, fasts) && FastLists(c, fasts) && FastSizes(sz, c, maxFast)
    requires SameInside(mem, mem', c, p) && SameFast(c, c') && (p in c ==> !c[p].kind.Fast?)
    ensures Chains(mem', heads, fasts) && FastLists(c', fasts) && FastSizes(sz, c', maxFast)
  {
    hide Chains, FastLists, FastSizes, Disjoint, Linked;
    forall a | a in c && c[a].kind.Fast? && 0 <= a + 2 < |mem| ensures mem'[a + 2] == mem[a + 2] {
      assert Inside(c, a, a + 2);
    }
    FastKeptLinks(sz, mem, mem', c, c', heads, fasts, maxFast);
  }

  ghost function Parked(c: Chunks, p: int, j: nat): Chunks
    requires p in c
  {
    c[p := Chunk(c[p].n, Fast(j))]
  }

  /** Pushing a chunk on its fast list. */
  lemma FastPush(mem: seq<int>, c: Chunks, base: int, top: int, heads: seq<int>, fasts: seq<seq<int>>, p: int, j: nat)
    requires Tiling(c, base, top) && top < |mem| && 0 <= base
    requires Chains(mem, heads, fasts) && FastLists(c, fasts)
    requires p in c && c[p].kind == Live && j < |fasts|
    ensures 0 <= p < |mem| - 3
    ensures Chains(mem[p + 2 := heads[j]], heads[j := p], fasts[j := [p] + fasts[j]])
    ensures FastLists(Parked(c, p, j), fasts[j := [p] + fasts[j]])
  {
    var mem', heads', c' := mem[p + 2 := heads[j]], heads[j := p], Parked(c, p, j);
    var fasts' := fasts[j := [p] + fasts[j]];
    assert Chain(mem, heads[j], fasts[j]);
    forall i, k | 0 <= i < |fasts'| && 0 <= k < |fasts'[i]| ensures OnFast(c', fasts', i, k) && LinkOk(mem', fasts'[i], k) {
      if !(i == j && k == 0) {
        var l := if i == j then k - 1 else k;
        assert OnFast(c, fasts, i, l);
        assert Chain(mem, heads[i], fasts[i]) && LinkOk(mem, fasts[i], l);
      }
    }
    forall i | 0 <= i < |fasts'| ensures Chain(mem', heads'[i], fasts'[i]) {
      assert Chain(mem, heads[i], fasts[i]);
      forall k | 0 <= k < |fasts'[i]| ensures LinkOk(mem', fasts'[i], k) {
        assert OnFast(c', fasts', i, k);
      }
    }
    PushMembers(c, fasts, p, j);
  }

  lemma PushMembers(c: Chunks, fasts: seq<seq<int>>, p: int, j: nat)
    requires FastLists(c, fasts) && p in c && c[p].kind == Live && j < |fasts|
    ensures FastLists(Parked(c, p, j), fasts[j := [p] + fasts[j]])
  {
    var c', fasts' := Parked(c, p, j), fasts[j := [p] + fasts[j]];
    forall i, k | 0 <= i < |fasts'| && 0 <= k < |fasts'[i]| ensures OnFast(c', fasts', i, k) {
      if !(i == j && k == 0) { assert OnFast(c, fasts, i, if i == j then k - 1 else k); }
    }
    assert Distinct(fasts'[j]) by {
      forall k | 0 <= k < |fasts[j]| ensures fasts[j][k] != p { assert OnFast(c, fasts, j, k); }
    }
    forall a | a in c' && c'[a].kind.Fast? ensures a in fasts'[c'[a].kind.slot] {
      if a == p { assert fasts'[j][0] == p; }
      else {
        var m :| 0 <= m < |fasts[c[a].kind.slot]| && fasts[c[a].kind.slot][m] == a;
        if c[a].kind.slot == j { assert fasts'[j][m + 1] == a; }
      }
    }
  }

  /** Popping the first chunk of a fast list. */
  lemma FastPop(mem: seq<int>, c: Chunks, heads: seq<int>, fasts: seq<seq<int>>, j: nat)
    requires Chains(mem, heads, fasts) && FastLists(c, fasts)
    requires j < |fasts| && fasts[j] != []
    ensures var p := heads[j];
            && p == fasts[j][0] && p in c && c[p].kind == Fast(j) && 0 <= p < |mem| - 3
            && Chains(mem, heads[j := mem[p + 2]], fasts[j := fasts[j][1..]])
            && FastLists(Taken(c, p), fasts[j := fasts[j][1..]])
  {
    var p := heads[j];
    assert Chain(mem, heads[j], fasts[j]);
    assert OnFast(c, fasts, j, 0) && LinkOk(mem, fasts[j], 0);
    var heads', fasts', c' := heads[j := mem[p + 2]], fasts[j := fasts[j][1..]], Taken(c, p);
    forall i | 0 <= i < |fasts'| ensures Chain(mem, heads'[i], fasts'[i]) {
      assert Chain(mem, heads[i], fasts[i]);
      forall k | 0 <= k < |fasts'[i]| ensures LinkOk(mem, fasts'[i], k) {
        assert LinkOk(mem, fasts[i], if i == j then k + 1 else k);
      }
    }
    forall i, k | 0 <= i < |fasts'| && 0 <= k < |fasts'[i]| ensures OnFast(c', fasts', i, k) {
      assert OnFast(c, fasts, i, if i == j then k + 1 else k);
    }
    forall a | a in c' && c'[a].kind.Fast? ensures a in fasts'[c'[a].kind.slot] {
      var m :| 0 <= m < |fasts[c[a].kind.slot]| && fasts[c[a].kind.slot][m] == a;
      if c[a].kind.slot == j { assert fasts'[j][m - 1] == a; }
    }
  }

  /** An empty list of fast chunks has an empty head. */
  lemma ChainEmpty(mem: seq<int>, c: Chunks, base: int, top: int, heads: seq<int>, fasts: seq<seq<int>>, j: nat)
    requires Chains(mem, heads, fasts) && FastLists(c, fasts) && Tiling(c, base, top) && 0 < base && j < |fasts|
    ensures heads[j] == 0 <==> fasts[j] == []
  {
    assert Chain(mem, heads[j], fasts[j]);
    if fasts[j] != [] { assert OnFast(c, fasts, j, 0); }
  }

  // ---------- the flags packed into max_fast ----------

  predicate HaveAny(v: nat) { v % 2 == 1 }

  predicate HaveFast(v: nat) { v / 2 % 2 == 1 }

  function SetAny(v: nat): nat { v / 2 * 2 + 1 }

  function SetFast(v: nat): nat { v / 4 * 4 + 3 }

  function ClearFast(v: nat): nat { if HaveFast(v) then v - 2 else v }

  function MaxFast(v: nat): nat { v / 4 * 4 }

  /** Comparing a chunk size with the packed word ignores the flags; so does indexing by it. */
  lemma FlagsDoNotMatter(b: nat, v: nat)
    requires b % 8 == 0 && MaxFast(v) % 8 == 0
    ensures b <= v <==> b <= MaxFast(v)
    ensures FastbinIndex(v) == FastbinIndex(MaxFast(v))
  {
    var k := MaxFast(v) / 8;
    assert v == 8 * k + v % 4;
    assert b == 8 * (b / 8);
  }

  lemma FlagUpdates(v: nat)
    ensures MaxFast(SetAny(v)) == MaxFast(SetFast(v)) == MaxFast(ClearFast(v)) == MaxFast(v)
    ensures HaveAny(SetAny(v)) && HaveFast(SetAny(v)) == HaveFast(v)
    ensures HaveAny(SetFast(v)) && HaveFast(SetFast(v))
    ensures HaveAny(ClearFast(v)) == HaveAny(v) && !HaveFast(ClearFast(v))
  {
    hide MaxFast, HaveAny, HaveFast, SetAny, SetFast, ClearFast;
    var k, r := v / 4, v % 4;
    assert v == 4 * k + r;
    FlagWord(k, r);
    FlagSet(k, r);
    FlagWord(k, if r % 2 == 0 then r + 1 else r);
    FlagWord(k, 3);
    FlagWord(k, if r >= 2 then r - 2 else r);
  }

  /** The word with maximum `4 * k` and flags `r`. */
  lemma FlagWord(k: nat, r: nat)
    requires r < 4
    ensures MaxFast(4 * k + r) == 4 * k
    ensures HaveAny(4 * k + r) <==> r == 1 || r == 3
    ensures HaveFast(4 * k + r) <==> r >= 2
  {
    assert (4 * k + r) / 2 == 2 * k + r / 2;
  }

  lemma FlagSet(k: nat, r: nat)
    requires r < 4
    ensures SetAny(4 * k + r) == 4 * k + if r % 2 == 0 then r + 1 else r
    ensures SetFast(4 * k + r) == 4 * k + 3
    ensures ClearFast(4 * k + r) == 4 * k + if r >= 2 then r - 2 else r
  {
    hide HaveFast;
    FlagWord(k, r);
    assert (4 * k + r) / 2 == 2 * k + r / 2;
  }

  lemma BytesAligned(sz: Width, n: nat)
    requires n % 2 == 0
    ensures Bytes(sz, n) % 8 == 0 && Bytes(sz, n) % Alignment(sz) == 0
  {
  }

  lemma DefaultMaxFast(sz: Width)
    ensures RequestToSize(sz, 64) == (if sz == 4 then 72 else 80)
    ensures NFastbins(sz) == (if sz == 4 then 10 else 11)
  {
  }

  lemma FastSlot(sz: Width, c: Chunks, fasts: seq<seq<int>>, v: nat, a: int)
    requires FastLists(c, fasts) && FastSizes(sz, c, RequestToSize(sz, 64)) && MaxFast(v) == RequestToSize(sz, 64)
    requires a in c
    ensures c[a].kind.Fast? ==> c[a].kind.slot < |fasts| && c[a].kind.slot <= FastbinIndex(v) && a in fasts[c[a].kind.slot]
  {
    DefaultMaxFast(sz);
    FlagsDoNotMatter(0, v);
  }

  /** Past the list of the largest fast size there is nothing, so draining up to it drains all. */
  lemma NoFastLeft(sz: Width, c: Chunks, fasts: seq<seq<int>>, v: nat)
    requires FastLists(c, fasts) && FastSizes(sz, c, RequestToSize(sz, 64))
    requires MaxFast(v) == RequestToSize(sz, 64) && |fasts| == NFastbins(sz)
    requires forall j | 0 <= j <= FastbinIndex(v) :: j < |fasts| ==> fasts[j] == []
    ensures forall a | a in c :: !c[a].kind.Fast?
  {
    forall a | a in c ensures !c[a].kind.Fast? {
      FastSlot(sz, c, fasts, v, a);
    }
  }
}

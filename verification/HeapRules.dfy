/** Which chunk malloc takes and what free makes of one, told of the heap as it was. */
module HeapRules {
  import opened HeapTags
  import opened HeapSizes
  import opened HeapLists
  import opened HeapFast
  import opened HeapBins
  import opened HeapFit

  /** The chunks, the lists, and the bounds of the heap. */
  datatype Stage = Stage(c: Chunks, bins: seq<seq<int>>, fasts: seq<seq<int>>, base: int, top: int, brk: int, last: int)

  function Min(a: int, b: int): int { if a < b then a else b }

  // ---------- free ----------

  /** The chunk `p` and the free chunks next to it are exactly what lies in [lo, hi). */
  ghost predicate Around(c: Chunks, top: int, p: int, lo: int, hi: int) {
    Range(c, p, lo, hi) && UsedBefore(c, lo) && (hi in c || hi == top) && !(hi in c && c[hi].kind.Binned?)
  }

  /** There is only one such stretch. */
  lemma AroundIsUnique(c: Chunks, base: int, top: int, p: int, lo: int, hi: int, lo': int, hi': int)
    requires Tiling(c, base, top) && Coalesced(c) && Around(c, top, p, lo, hi) && Around(c, top, p, lo', hi')
    ensures lo == lo' && hi == hi'
  {
    AroundStart(c, base, top, p, lo, hi, lo', hi');
    AroundStart(c, base, top, p, lo', hi', lo, hi);
    AroundEnd(c, base, top, p, lo, hi, lo', hi');
    AroundEnd(c, base, top, p, lo', hi', lo, hi);
  }

  lemma AroundStart(c: Chunks, base: int, top: int, p: int, lo: int, hi: int, lo': int, hi': int)
    requires Tiling(c, base, top) && Coalesced(c) && Around(c, top, p, lo, hi) && Around(c, top, p, lo', hi')
    ensures lo <= lo'
  {
    assert lo' == p || Succ(c, lo') == p;
  }

  lemma AroundEnd(c: Chunks, base: int, top: int, p: int, lo: int, hi: int, lo': int, hi': int)
    requires Tiling(c, base, top) && Coalesced(c) && Around(c, top, p, lo, hi) && Around(c, top, p, lo', hi')
    ensures hi <= hi'
  {
    assert Succ(c, p) in c || Succ(c, p) == top;
  }

  /** What is left of the chunks when [lo, hi) is free: one chunk on the unsorted list, or more of the top. */
  ghost function FreedChunks(c: Chunks, top: int, lo: int, hi: int): Chunks {
    if hi == top then Cut(c, lo, hi) else Fused(c, lo, hi)
  }

  /** The size of what was freed. */
  function FreedSize(s: Stage, lo: int, hi: int): int {
    if hi == s.top then s.brk - lo else hi - lo
  }

  /** A chunk and its free neighbours are one free chunk, the first of the unsorted list, or part of the top. */
  ghost predicate Freed(s: Stage, t: Stage, p: int, lo: int, hi: int) {
    && Around(s.c, s.top, p, lo, hi) && t.c == FreedChunks(s.c, s.top, lo, hi)
    && (hi == s.top ==> t.top == lo)
    && (hi != s.top ==> t.top == s.top && 1 < |t.bins| && t.bins[1] != [] && t.bins[1][0] == lo)
    && t.fasts == s.fasts && t.base == s.base && t.brk == s.brk && t.last == s.last
  }

  /** A chunk is parked as the first of fast list `j`, and nothing else changes. */
  ghost predicate ParkedFirst(s: Stage, t: Stage, p: int, j: int) {
    && p in s.c && 0 <= j < |s.fasts|
    && t == s.(c := Parked(s.c, p, j), fasts := s.fasts[j := [p] + s.fasts[j]])
  }

  lemma BelowTop(c: Chunks, base: int, top: int, a: int)
    requires Tiling(c, base, top) && a in c
    ensures a != top
  {}

  lemma NotTop(c: Chunks, base: int, top: int)
    requires Tiling(c, base, top)
    ensures top !in c
  {}

  /** `w` is the most whole pages that leave more than the padding and a minimal chunk; none if that takes none. */
  predicate Surplus(page: int, size: int, pad: int, w: int)
    requires page > 0
  {
    && 0 <= w && w % page == 0 && (0 < w ==> pad + MINWORDS < size - w)
    && size - (w + page) <= pad + MINWORDS
  }

  /** What the code offers: the excess over the padding and a minimal chunk, rounded to whole pages. */
  function TrimExtra(page: int, size: int, pad: int): int
    requires page > 0
  {
    ((size - pad - MINWORDS + (page - 1)) / page - 1) * page
  }

  lemma TrimSurplus(page: int, size: int, pad: nat)
    requires page > 0
    ensures var x := TrimExtra(page, size, pad);
      x < size - pad - MINWORDS && Surplus(page, size, pad, if x > 0 then x else 0)
  {
    var y := size - pad - MINWORDS + (page - 1);
    var k := y / page - 1;
    assert y == y / page * page + y % page;
    assert (y / page - 1) * page == y / page * page - page;
    WholePages(k, page);
    WholePages(0, page);
  }

  lemma NotNegative(a: int, b: int)
    requires 0 <= a && 0 <= b
    ensures 0 <= a * b
  {}

  lemma Apart(d: int, page: int)
    requires page > 0
    ensures if d == 0 then d * page == 0 else if d > 0 then page <= d * page else d * page <= -page
  {
    if d > 0 {
      NotNegative(d - 1, page);
      assert d * page == (d - 1) * page + page;
    } else if d < 0 {
      NotNegative(-d - 1, page);
      assert d * page == -((-d - 1) * page) - page;
    }
  }

  lemma WholePages(k: int, page: int)
    requires page > 0
    ensures (k * page) % page == 0
  {
    var x := k * page;
    var d := x / page - k;
    assert x == x / page * page + x % page;
    assert d * page == -(x % page) by { assert d * page == x / page * page - k * page; }
    Apart(d, page);
  }

  lemma SurplusIsUnique(page: int, size: int, pad: int, w: int, w': int)
    requires page > 0 && Surplus(page, size, pad, w) && Surplus(page, size, pad, w')
    ensures w == w'
  {
    SurplusLeast(page, size, pad, w, w');
    SurplusLeast(page, size, pad, w', w);
  }

  lemma SurplusLeast(page: int, size: int, pad: int, w: int, w': int)
    requires page > 0 && Surplus(page, size, pad, w) && Surplus(page, size, pad, w')
    ensures w <= w'
  {
    var q, q' := w / page, w' / page;
    assert w == q * page && w' == q' * page;
    assert w - w' == (q - q') * page;
    Apart(q - q', page);
  }

  /** So what the code offers is the surplus. */
  lemma TrimIsSurplus(page: int, size: int, pad: nat)
    requires page > 0
    ensures var x := TrimExtra(page, size, pad);
      x < size - pad - MINWORDS && forall w | Surplus(page, size, pad, w) :: w == if x > 0 then x else 0
  {
    hide TrimExtra;
    var x := TrimExtra(page, size, pad);
    TrimSurplus(page, size, pad);
    forall w | Surplus(page, size, pad, w)
      ensures w == if x > 0 then x else 0
    {
      SurplusIsUnique(page, size, pad, w, if x > 0 then x else 0);
    }
  }

  /** What is left of a trimmed top is the remainder of its size, counted from the padding and a minimal chunk on. */
  lemma TrimLeaves(page: int, size: int, pad: nat, w: int)
    requires page > 0 && Surplus(page, size, pad, w) && 0 < w
    ensures size - w == pad + MINWORDS + 1 + (size - pad - MINWORDS - 1) % page
  {
    var y := size - pad - MINWORDS - 1;
    var d := y / page - w / page;
    assert y == y / page * page + y % page && w == w / page * page;
    assert d * page == y / page * page - w / page * page;
    Apart(d, page);
  }

  /** So trimming keeps a page, as the code says it does, exactly if the padding and that remainder make one. */
  lemma TrimKeepsPageIff(page: int, size: int, pad: nat, w: int)
    requires page > 0 && Surplus(page, size, pad, w) && 0 < w
    ensures page <= size - w <==> page <= pad + MINWORDS + 1 + (size - pad - MINWORDS - 1) % page
  {
    TrimLeaves(page, size, pad, w);
  }

  lemma TrimCanKeepLess()
    ensures Surplus(1024, 2000, 0, 1024) && 2000 - 1024 < 1024
  {}

  /** The top after trimming: it is offered to the system once it reaches the threshold, and the system takes `give`
      words of what it is offered. */
  ghost predicate Trimmed(sz: Width, page: int, pad: int, threshold: int, give: nat, top: int, brk: int, brk': int) {
    page > 0 &&
    if Bytes(sz, brk - top) < threshold then brk' == brk
    else forall w | Surplus(page, brk - top, pad, w) :: brk' == brk - Min(give, w)
  }

  /** After a large space became free, every parked chunk is merged too, and then the top is trimmed. */
  ghost predicate Swept(s: Stage, t: Stage, p: int, lo: int, hi: int) {
    && Around(s.c, s.top, p, lo, hi) && Merged(FreedChunks(s.c, s.top, lo, hi), t.c, s.base)
    && t.base == s.base && t.last == s.last
  }

  const FASTBIN_CONSOLIDATION_THRESHOLD := 128 * 1024

  /** What free does with a chunk: a small one is parked; a larger one joins its free neighbours; and if that makes a
      large space, nothing stays parked and the top is trimmed. */
  ghost predicate FreedBy(sz: Width, page: int, pad: int, threshold: int, give: nat, s: Stage, t: Stage, p: int, lo: int, hi: int) {
    p in s.c &&
    var b := Bytes(sz, s.c[p].n);
    if b <= RequestToSize(sz, 64) then ParkedFirst(s, t, p, FastbinIndex(b))
    else if Bytes(sz, FreedSize(s, lo, hi)) < FASTBIN_CONSOLIDATION_THRESHOLD then Freed(s, t, p, lo, hi)
    else Swept(s, t, p, lo, hi) && Trimmed(sz, page, pad, threshold, give, t.top, s.brk, t.brk)
  }

  lemma MergedRefl(c: Chunks, base: int, top: int)
    requires Tiling(c, base, top) && Coalesced(c) && forall a | a in c :: !c[a].kind.Fast?
    ensures Merged(c, c, base)
  {}

  // ---------- malloc ----------

  /** The answers of the system to the two requests for memory of one call. */
  datatype Env = Env(first: bool, second: bool)

  ghost predicate Parks(s: Stage) { exists a :: a in s.c && s.c[a].kind.Fast? }

  /** A parked chunk has the size asked for, and it is a size that is parked. */
  ghost predicate FastHit(sz: Width, s: Stage, nb: int) {
    Bytes(sz, nb) <= RequestToSize(sz, 64) && exists a :: a in s.c && s.c[a].kind.Fast? && s.c[a].n == nb
  }

  /** The request is small, and a chunk in the sorted bins has exactly its size. */
  ghost predicate SortedHit(sz: Width, s: Stage, nb: int) {
    Bytes(sz, nb) < MIN_LARGE_SIZE && !NoExact(s.c, nb)
  }

  ghost predicate ExactAt(s: Stage, k: int, nb: int) {
    1 < |s.bins| && 0 <= k < |s.bins[1]| && s.bins[1][k] in s.c && s.c[s.bins[1][k]].n == nb
  }

  /** An unsorted chunk has exactly the size asked for. */
  ghost predicate UnsortedHit(s: Stage, nb: int) { exists k :: ExactAt(s, k, nb) }

  /** The request is small, and the unsorted chunk that is reached last is the remainder of the last split and has
      more than enough room for it. */
  ghost predicate RemainderHit(sz: Width, s: Stage, nb: int) {
    && Bytes(sz, nb) < MIN_LARGE_SIZE && 1 < |s.bins| && s.bins[1] != [] && s.bins[1][0] == s.last
    && s.last in s.c && nb + MINWORDS < s.c[s.last].n
  }

  /** The top has room for the request and a minimal chunk. */
  ghost predicate TopHit(s: Stage, nb: int) { s.top != BinAt(1) && nb + MINWORDS <= s.brk - s.top }

  /** The words to ask the system for. */
  function Shortage(page: int, pad: int, s: Stage, nb: int): int
    requires page > 0
  {
    RoundUp(nb + pad + MINWORDS - (if s.top == BinAt(1) then 0 else s.brk - s.top), page)
  }

  /** Where the top starts and where memory ends once the system has granted its part. */
  function NewTop(s: Stage): int { if s.top == BinAt(1) then s.brk + s.brk % 2 else s.top }

  function NewBreak(page: int, pad: int, limit: int, env: Env, s: Stage, nb: int): int
    requires page > 0
  {
    var end := s.brk + Shortage(page, pad, s, nb);
    if s.top != BinAt(1) then end
    else
      var aligned := RoundUp(end + s.brk % 2, page);
      if env.second && aligned <= limit then aligned else end
  }

  /** The system grants enough for the request. */
  ghost predicate MoreHit(page: int, pad: int, limit: int, env: Env, s: Stage, nb: int)
    requires page > 0
  {
    && env.first && s.brk + Shortage(page, pad, s, nb) <= limit
    && nb + MINWORDS <= NewBreak(page, pad, limit, env, s, nb) - NewTop(s)
  }

  /** Chunk `p` is in use: whole, or its first `nb` words if the rest makes a chunk. */
  ghost function Portion(c: Chunks, p: int, nb: int): Chunks
    requires p in c
  {
    if c[p].n < nb + MINWORDS then Taken(c, p) else Split(c, p, nb)
  }

  ghost predicate SameBounds(s: Stage, t: Stage) {
    t.fasts == s.fasts && t.base == s.base && t.top == s.top && t.brk == s.brk
  }

  /** The most recently parked chunk of the size. */
  ghost predicate FastTaken(sz: Width, s: Stage, t: Stage, p: int, nb: int) {
    var j := FastbinIndex(Bytes(sz, nb));
    && 0 <= j < |s.fasts| && s.fasts[j] != [] && p == s.fasts[j][0] && p in s.c && s.c[p].n == nb
    && t == s.(c := Taken(s.c, p), fasts := s.fasts[j := s.fasts[j][1..]])
  }

  /** The oldest chunk of the bin of the size. */
  ghost predicate SortedTaken(sz: Width, s: Stage, t: Stage, p: int, nb: int) {
    var j := Bytes(sz, nb) / 8;
    && 2 <= j < |s.bins| && s.bins[j] != [] && p == s.bins[j][|s.bins[j]| - 1] && p in s.c && s.c[p].n == nb
    && t == s.(c := Taken(s.c, p), bins := s.bins[j := s.bins[j][..|s.bins[j]| - 1]])
  }

  /** The oldest unsorted chunk of the size; the older ones are sorted into their bins. */
  ghost predicate UnsortedTaken(s: Stage, t: Stage, mid: Chunks, p: int, k: int, nb: int) {
    && ExactAt(s, k, nb) && p == s.bins[1][k] && (forall j | k < j < |s.bins[1]| :: !ExactAt(s, j, nb))
    && Relisted(s.c, mid) && p in mid && t.c == Taken(mid, p) && 1 < |t.bins| && t.bins[1] == s.bins[1][..k]
    && SameBounds(s, t) && t.last == s.last
  }

  ghost predicate OldestTaken(s: Stage, t: Stage, mid: Chunks, p: int, nb: int) {
    exists k :: UnsortedTaken(s, t, mid, p, k, nb)
  }

  /** The last remainder is split again, and what is left is the last remainder. */
  ghost predicate RemainderTaken(s: Stage, t: Stage, mid: Chunks, p: int, nb: int) {
    && p == s.last && Relisted(s.c, mid) && p in mid && t.c == Split(mid, p, nb) && 1 < |t.bins| && t.bins[1] == [p + nb]
    && SameBounds(s, t) && t.last == p + nb
  }

  /** A chunk is taken, with what is left of it alone on the unsorted list. */
  ghost predicate PortionTaken(s: Stage, t: Stage, p: int, nb: int) {
    && p in s.c && t.c == Portion(s.c, p, nb) && 1 < |t.bins|
    && t.bins[1] == (if s.c[p].n < nb + MINWORDS then [] else [p + nb])
  }

  /** Of the chunks in its bin that have room, `p` is the last. */
  ghost predicate LastFit(s: Stage, p: int, nb: int) {
    && p in s.c && s.c[p].kind.Binned? && s.c[p].kind.bin < |s.bins|
    && exists k :: LastFitAt(s, p, k, nb)
  }

  ghost predicate LastFitAt(s: Stage, p: int, k: int, nb: int)
    requires p in s.c && s.c[p].kind.Binned? && s.c[p].kind.bin < |s.bins|
  {
    var l := s.bins[s.c[p].kind.bin];
    0 <= k < |l| && l[k] == p && TailTooSmall(s.c, l, k + 1, nb)
  }

  lemma LastFits(s: Stage, i: int, k: int, nb: int)
    requires 0 <= i < |s.bins| && 0 <= k < |s.bins[i]| && s.bins[i][k] in s.c && s.c[s.bins[i][k]].kind == Binned(i)
    requires TailTooSmall(s.c, s.bins[i], k + 1, nb)
    ensures LastFit(s, s.bins[i][k], nb)
  {
    hide TailTooSmall;
    assert LastFitAt(s, s.bins[i][k], k, nb);
  }

  /** A smallest chunk with room; what is left of a split for a small request is the last remainder. */
  ghost predicate FitTaken(sz: Width, s: Stage, t: Stage, mid: Chunks, p: int, nb: int) {
    && BestFit(s.c, p, nb) && Relisted(s.c, mid) && p in mid && t.c == Portion(mid, p, nb) && 1 < |t.bins|
    && t.bins[1] == (if s.c[p].n < nb + MINWORDS then [] else [p + nb])
    && t.last == (if s.c[p].n < nb + MINWORDS || MIN_LARGE_SIZE <= Bytes(sz, nb) then s.last else p + nb)
    && SameBounds(s, t)
  }

  /** The first `nb` words of the top, which has grown to `brk`. */
  ghost predicate TopTaken(s: Stage, t: Stage, mid: Chunks, p: int, nb: int, top: int, brk: int) {
    && p == top && Relisted(s.c, mid) && t.c == Carved(mid, p, nb) && t.top == p + nb && t.brk == brk
    && t.fasts == s.fasts && t.last == s.last
  }

  /** The rules of malloc, first to last. */
  ghost predicate Placed(sz: Width, page: int, pad: int, limit: int, env: Env, s: Stage, t: Stage, mid: Chunks, m: int, nb: int, origin: Origin) {
    page > 0 &&
    if FastHit(sz, s, nb) then origin == FromFast && FastTaken(sz, s, t, m - 2, nb)
    else if SortedHit(sz, s, nb) then origin == FromBin && SortedTaken(sz, s, t, m - 2, nb)
    else if UnsortedHit(s, nb) then origin == FromBin && OldestTaken(s, t, mid, m - 2, nb)
    else if RemainderHit(sz, s, nb) then origin == FromRemainder && RemainderTaken(s, t, mid, m - 2, nb)
    else if !NoFit(s.c, nb) then origin == FromBin && FitTaken(sz, s, t, mid, m - 2, nb)
    else if TopHit(s, nb) then origin == FromTop && TopTaken(s, t, mid, m - 2, nb, s.top, s.brk)
    else if MoreHit(page, pad, limit, env, s, nb) then
      origin == FromTop && TopTaken(s, t, mid, m - 2, nb, NewTop(s), NewBreak(page, pad, limit, env, s, nb))
    else m == 0 && origin == Nowhere && Relisted(s.c, mid) && t.c == mid
  }

  /** Parked chunks are merged first for a large request, and for a small one that neither they nor anything else,
      except the system, can serve. */
  ghost predicate Merges(sz: Width, s: Stage, nb: int) {
    Parks(s) && !FastHit(sz, s, nb) && (MIN_LARGE_SIZE <= Bytes(sz, nb) || (NoFit(s.c, nb) && !TopHit(s, nb)))
  }

  ghost predicate Regrouped(s: Stage, t: Stage) {
    Merged(s.c, t.c, s.base) && Tiling(t.c, t.base, t.top) && Lists(t.c, t.bins) && t.base == s.base && t.brk == s.brk && t.last == s.last
  }

  /** What malloc does: the rules hold of the heap as it was, or as merging leaves it. */
  ghost predicate Served(sz: Width, page: int, pad: int, limit: int, env: Env, s: Stage, stage: Stage, t: Stage, mid: Chunks,
                         m: int, nb: int, origin: Origin)
  {
    (if Merges(sz, s, nb) then Regrouped(s, stage) else stage == s)
    && Placed(sz, page, pad, limit, env, stage, t, mid, m, nb, origin)
  }

  /** With no room in any free chunk, no rule for free chunks applies. */
  lemma NoFitNoHit(sz: Width, s: Stage, nb: int)
    requires NoFit(s.c, nb) && Lists(s.c, s.bins)
    ensures !SortedHit(sz, s, nb) && !UnsortedHit(s, nb) && !RemainderHit(sz, s, nb)
  {
    forall k
      ensures !ExactAt(s, k, nb)
    {
      if 1 < |s.bins| && 0 <= k < |s.bins[1]| {
        assert OnList(s.c, s.bins, 1, k);
        var a := s.bins[1][k];
        assert a in s.c && s.c[a].kind.Binned?;
      }
    }
    if 1 < |s.bins| && s.bins[1] != [] {
      assert OnList(s.c, s.bins, 1, 0);
    }
  }

  lemma NotParked(sz: Width, s: Stage, nb: int)
    requires !Parks(s)
    ensures !FastHit(sz, s, nb) && !Merges(sz, s, nb)
  {}

  lemma RelistedParks(sz: Width, s: Stage, t: Stage, nb: int)
    requires Relisted(s.c, t.c)
    ensures Parks(s) == Parks(t) && FastHit(sz, s, nb) == FastHit(sz, t, nb) && NoFit(s.c, nb) == NoFit(t.c, nb)
  {
    assert forall a | a in s.c :: a in t.c;
    assert forall a | a in t.c :: a in s.c;
  }

  /** The heap after its free chunks were sorted, when none fits: the rules say the same of it. */
  lemma ServedSorted(sz: Width, page: int, pad: int, limit: int, env: Env, s: Stage, s': Stage, stage: Stage, t: Stage, mid: Chunks,
                     m: int, nb: int, origin: Origin) returns (stage': Stage)
    requires Relisted(s.c, s'.c) && NoFit(s.c, nb) && !FastHit(sz, s, nb) && SameBounds(s, s') && s'.last == s.last
    requires Lists(s.c, s.bins) && Lists(s'.c, s'.bins)
    requires Served(sz, page, pad, limit, env, s', stage, t, mid, m, nb, origin)
    ensures Served(sz, page, pad, limit, env, s, stage', t, mid, m, nb, origin)
  {
    hide UnsortedHit, SortedHit, RemainderHit, FastHit, Relisted, NoFit, Lists, Merged, Tiling, Parks, RoundUp;
    hide FitTaken, OldestTaken, FastTaken, SortedTaken, RemainderTaken;
    RelistedParks(sz, s, s', nb);
    NoFitNoHit(sz, s, nb);
    NoFitNoHit(sz, s', nb);
    if Merges(sz, s, nb) {
      stage' := stage;
      MergedFromRelisted(s.c, s'.c, stage.c, s.base);
    } else {
      stage' := s;
      if Relisted(s'.c, mid) {
        RelistedTrans(s.c, s'.c, mid);
      }
    }
  }

  lemma MergedFromRelisted(c: Chunks, c': Chunks, d: Chunks, base: int)
    requires Relisted(c, c') && Merged(c', d, base)
    ensures Merged(c, d, base)
  {}

  /** The heap before the first call. */
  ghost function Untouched(sz: Width, base: int, brk: int, last: int): Stage {
    Stage(map[], NoLists(NBINS), NoLists(NFastbins(sz)), base, BinAt(1), brk, last)
  }

  // ---------- realloc ----------

  /** Chunk `p` keeps the first `nb` words of [p, e), or all of them, and the rest is freed. */
  ghost predicate Shrunk(sz: Width, page: int, pad: int, threshold: int, give: nat, s: Stage, t: Stage, p: int, e: int, nb: int, lo: int, hi: int) {
    if e - p - nb < MINWORDS then t == s.(c := Resized(s.c, p, e, e - p))
    else FreedBy(sz, page, pad, threshold, give, s.(c := Resized(s.c, p, e, nb)), t, p + nb, lo, hi)
  }

  /** The two calls of a move: malloc took `m`, which left the heap at `taken`; then [lo, hi) became free. */
  datatype Moving = Moving(stage: Stage, taken: Stage, mid: Chunks, m: int, origin: Origin, lo: int, hi: int)

  /** A chunk moves by the rules of malloc and free, unless the new one follows the old one. */
  ghost predicate Relocated(sz: Width, page: int, pad: int, threshold: int, limit: int, env: Env, give: nat, s: Stage, t: Stage,
                            p: int, q: int, nb: int, how: Moving)
  {
    && p in s.c && Served(sz, page, pad, limit, env, s, how.stage, how.taken, how.mid, how.m, nb, how.origin)
    && (how.m == 0 ==> q == 0)
    && (how.m != 0 && how.m - 2 == Succ(s.c, p) ==> q == p)
    && (how.m != 0 && how.m - 2 != Succ(s.c, p) ==>
        q == how.m - 2 && FreedBy(sz, page, pad, threshold, give, how.taken, t, p, how.lo, how.hi))
  }

  lemma GrownKinds(c: Chunks, p: int, nb: int)
    requires p in c && c[p].kind == Live
    ensures var d := Grown(c, p, nb);
      && p in d && d[p] == Chunk(nb, Live) && (forall a | a in d :: a in c && d[a].kind == c[a].kind)
  {}

  // ---------- one rule each ----------

  lemma NotFast(sz: Width, s: Stage, nb: int)
    requires Bytes(sz, nb) > RequestToSize(sz, 64)
    ensures !FastHit(sz, s, nb)
  {}

  lemma NoSmallHit(sz: Width, s: Stage, nb: int)
    requires MIN_LARGE_SIZE <= Bytes(sz, nb)
    ensures !SortedHit(sz, s, nb)
  {}

  lemma ServedFast(sz: Width, page: int, pad: int, limit: int, env: Env, s: Stage, t: Stage, p: int, nb: int)
    requires page > 0 && FastHit(sz, s, nb) && FastTaken(sz, s, t, p, nb)
    ensures Served(sz, page, pad, limit, env, s, s, t, s.c, p + 2, nb, FromFast)
  {
    hide FastHit, FastTaken, Parks;
  }

  lemma ServedSmall(sz: Width, page: int, pad: int, limit: int, env: Env, s: Stage, t: Stage, p: int, nb: int)
    requires page > 0 && !FastHit(sz, s, nb) && SortedHit(sz, s, nb) && SortedTaken(sz, s, t, p, nb)
    ensures Served(sz, page, pad, limit, env, s, s, t, s.c, p + 2, nb, FromBin)
  {
    hide FastHit, SortedTaken, Parks;
  }

  lemma ServedUnsorted(sz: Width, page: int, pad: int, limit: int, env: Env, s: Stage, t: Stage, mid: Chunks, p: int, nb: int, origin: Origin)
    requires page > 0 && !FastHit(sz, s, nb) && !SortedHit(sz, s, nb) && Lists(s.c, s.bins)
    requires Parks(s) ==> Bytes(sz, nb) < MIN_LARGE_SIZE
    requires origin.FromBin? || origin.FromRemainder?
    requires origin.FromBin? ==> UnsortedHit(s, nb) && OldestTaken(s, t, mid, p, nb)
    requires origin.FromRemainder? ==> !UnsortedHit(s, nb) && RemainderHit(sz, s, nb) && RemainderTaken(s, t, mid, p, nb)
    ensures Served(sz, page, pad, limit, env, s, s, t, mid, p + 2, nb, origin)
  {
    hide FastHit, SortedHit, UnsortedHit, RemainderHit, OldestTaken, RemainderTaken, Parks, NoFit, Lists;
    if NoFit(s.c, nb) { NoFitNoHit(sz, s, nb); }
  }

  lemma ServedFit(sz: Width, page: int, pad: int, limit: int, env: Env, s: Stage, s': Stage, t: Stage, p: int, nb: int)
    requires page > 0 && !FastHit(sz, s, nb) && !SortedHit(sz, s, nb) && !UnsortedHit(s, nb) && !RemainderHit(sz, s, nb)
    requires Parks(s) ==> Bytes(sz, nb) < MIN_LARGE_SIZE
    requires Relisted(s.c, s'.c) && SameBounds(s, s') && s'.last == s.last && FitTaken(sz, s', t, s'.c, p, nb)
    ensures Served(sz, page, pad, limit, env, s, s, t, s'.c, p + 2, nb, FromBin)
  {
    hide FastHit, SortedHit, UnsortedHit, RemainderHit, Parks, Portion;
    BestRelisted(s.c, s'.c, p, nb);
  }

  lemma BestRelisted(c: Chunks, c': Chunks, p: int, nb: int)
    requires Relisted(c, c') && BestFit(c', p, nb)
    ensures BestFit(c, p, nb) && !NoFit(c, nb) && p in c' && c[p].n == c'[p].n
  {}

  lemma ServedTop(sz: Width, page: int, pad: int, limit: int, env: Env, s: Stage, t: Stage, m: int, nb: int)
    requires page > 0 && !FastHit(sz, s, nb) && NoFit(s.c, nb) && Lists(s.c, s.bins) && TopHit(s, nb)
    requires Parks(s) ==> Bytes(sz, nb) < MIN_LARGE_SIZE
    requires m - 2 == s.top && t == s.(c := Carved(s.c, s.top, nb), top := s.top + nb)
    ensures Served(sz, page, pad, limit, env, s, s, t, s.c, m, nb, FromTop)
  {
    hide FastHit, SortedHit, UnsortedHit, RemainderHit, Parks, NoFit, Lists;
    NoFitNoHit(sz, s, nb);
    RelistedRefl(s.c);
  }

  lemma ServedMore(sz: Width, page: int, pad: int, limit: int, env: Env, s: Stage, t: Stage, m: int, nb: int, origin: Origin)
    requires page > 0 && NoFit(s.c, nb) && Lists(s.c, s.bins) && !TopHit(s, nb) && !Parks(s)
    requires m != 0 <==> MoreHit(page, pad, limit, env, s, nb)
    requires m != 0 ==> origin == FromTop && TopTaken(s, t, s.c, m - 2, nb, NewTop(s), NewBreak(page, pad, limit, env, s, nb))
    requires m == 0 ==> origin == Nowhere && t.c == s.c
    ensures Served(sz, page, pad, limit, env, s, s, t, s.c, m, nb, origin)
  {
    hide SortedHit, UnsortedHit, RemainderHit, NoFit, Lists, MoreHit, NewBreak, TopTaken, Relisted, FastHit, Parks;
    NotParked(sz, s, nb);
    NoFitNoHit(sz, s, nb);
    RelistedRefl(s.c);
  }

  /** After merging, the rules hold of the merged heap. */
  lemma ServedMerged(sz: Width, page: int, pad: int, limit: int, env: Env, s: Stage, s1: Stage, stage: Stage, t: Stage, mid: Chunks,
                     m: int, nb: int, origin: Origin)
    requires !Parks(s1) && !FastHit(sz, s, nb)
    requires if Parks(s) then Regrouped(s, s1) else s1 == s
    requires MIN_LARGE_SIZE <= Bytes(sz, nb) || (NoFit(s.c, nb) && !TopHit(s, nb))
    requires Served(sz, page, pad, limit, env, s1, stage, t, mid, m, nb, origin)
    ensures Served(sz, page, pad, limit, env, s, stage, t, mid, m, nb, origin)
  {
    hide Placed, FastHit, NoFit, TopHit, Regrouped, Parks;
    NotParked(sz, s1, nb);
  }

  /** Asking for the size that was just parked gives that chunk back, and the heap is as it was. */
  lemma ReusesParked(sz: Width, page: int, pad: int, limit: int, env: Env, s: Stage, t: Stage, p: int, stage: Stage, u: Stage, mid: Chunks,
                     m: int, origin: Origin)
    requires p in s.c && s.c[p].kind == Live && Bytes(sz, s.c[p].n) <= RequestToSize(sz, 64)
    requires ParkedFirst(s, t, p, FastbinIndex(Bytes(sz, s.c[p].n)))
    requires Served(sz, page, pad, limit, env, t, stage, u, mid, m, s.c[p].n, origin)
    ensures m - 2 == p && origin == FromFast && u == s
  {
    var nb := s.c[p].n;
    var j := FastbinIndex(Bytes(sz, nb));
    assert p in t.c && t.c[p].kind.Fast? && t.c[p].n == nb;
    assert FastHit(sz, t, nb) && FastTaken(sz, t, u, m - 2, nb);
    assert Taken(t.c, p) == s.c;
    assert t.fasts[j][1..] == s.fasts[j];
    assert t.fasts[j := s.fasts[j]] == s.fasts;
  }

  // ---------- sorting ----------

  /** Where a chunk of `n` words goes in list `s` of bin `i`: in front in a small bin; in a large one behind all that
      are larger and before the others, but last if it is not larger than the last. */
  ghost predicate PlaceOf(c: Chunks, s: seq<int>, k: int, i: int, n: int) {
    && 0 <= k <= |s| && (forall j | 0 <= j < |s| :: s[j] in c || i < NSMALLBINS)
    && (i < NSMALLBINS ==> k == 0)
    && (i >= NSMALLBINS && s != [] && n <= c[s[|s| - 1]].n ==> k == |s|)
    && (i >= NSMALLBINS && (s == [] || n > c[s[|s| - 1]].n) ==>
        (forall j | 0 <= j < k :: c[s[j]].n > n) && (forall j | k <= j < |s| :: c[s[j]].n <= n))
  }

  /** The oldest unsorted chunk goes to the bin of its size. */
  ghost predicate SortedIn(sz: Width, s: Stage, t: Stage, v: int, k: int) {
    v in s.c && 0 <= Bytes(sz, s.c[v].n) &&
    var i := BinIndex(Bytes(sz, s.c[v].n));
    && |s.bins| == NBINS && 2 <= i < NBINS && s.bins[1] != [] && v == s.bins[1][|s.bins[1]| - 1]
    && PlaceOf(Taken(s.c, v), s.bins[i], k, i, s.c[v].n)
    && t == s.(c := Listed(s.c, v, i), bins := s.bins[1 := s.bins[1][..|s.bins[1]| - 1]][i := With(s.bins[i], k, v)])
  }

  lemma InItsBin(sz: Width, s: Stage, t: Stage, v: int, i: int, k: int)
    requires v in s.c && 0 <= Bytes(sz, s.c[v].n) && i == BinIndex(Bytes(sz, s.c[v].n)) && 2 <= i < NBINS
    requires |s.bins| == NBINS && s.bins[1] != [] && v == s.bins[1][|s.bins[1]| - 1]
    requires 0 <= k <= |s.bins[i]| && PlaceOf(Taken(s.c, v), s.bins[i], k, i, s.c[v].n)
    requires t == s.(c := Listed(s.c, v, i), bins := s.bins[1 := Without(s.bins[1], |s.bins[1]| - 1)][i := With(s.bins[i], k, v)])
    ensures SortedIn(sz, s, t, v, k)
  {
    hide PlaceOf, BinIndex, With;
    assert Without(s.bins[1], |s.bins[1]| - 1) == s.bins[1][..|s.bins[1]| - 1];
  }

  // ---------- going through the unsorted list ----------

  /** No unsorted chunk from place `k` on has the size. */
  ghost predicate NoneFrom(s: Stage, k: int, nb: int) {
    1 < |s.bins| && forall j | k <= j < |s.bins[1]| :: !ExactAt(s, j, nb)
  }

  lemma AllUnsorted(s: Stage)
    requires |s.bins| == NBINS
    ensures forall nb :: NoneFrom(s, |s.bins[1]|, nb)
    ensures forall sz: Width, nb :: s.bins[1] == [] ==> !RemainderHit(sz, s, nb)
  {}

  lemma NoneIsNoHit(s: Stage, nb: int)
    requires NoneFrom(s, 0, nb)
    ensures !UnsortedHit(s, nb)
  {}

  /** The chunk at place `k` as it was: sorting others did not change its size. */
  lemma SizeOfUnsorted(s: Stage, c: Chunks, bins: seq<seq<int>>, k: int, nb: int)
    requires Relisted(s.c, c) && 1 < |bins| && 1 < |s.bins| && bins[1] <= s.bins[1] && 0 <= k < |bins[1]| && bins[1][k] in c
    ensures var v := s.bins[1][k]; v == bins[1][k] && v in s.c && s.c[v].n == c[v].n && (ExactAt(s, k, nb) <==> c[v].n == nb)
  {}

  lemma NoneExactFrom(s: Stage, k: int, nb: int)
    requires NoneFrom(s, k + 1, nb) && !ExactAt(s, k, nb)
    ensures NoneFrom(s, k, nb) && (k == 0 ==> !UnsortedHit(s, nb))
  {}

  lemma ExactFound(s: Stage, k: int, nb: int)
    requires NoneFrom(s, k + 1, nb) && ExactAt(s, k, nb)
    ensures UnsortedHit(s, nb) && forall j | k < j < |s.bins[1]| :: !ExactAt(s, j, nb)
  {}

  lemma RemainderIs(sz: Width, s: Stage, v: int, nb: int)
    requires Bytes(sz, nb) < MIN_LARGE_SIZE && 1 < |s.bins| && s.bins[1] != [] && s.bins[1][0] == v == s.last
    requires v in s.c && nb + MINWORDS < s.c[v].n
    ensures RemainderHit(sz, s, nb)
  {}

  lemma NotRemainder(sz: Width, s: Stage, nb: int)
    requires 1 < |s.bins| && s.bins[1] != [] && s.bins[1][0] in s.c
    requires !(Bytes(sz, nb) < MIN_LARGE_SIZE && s.bins[1][0] == s.last && nb + MINWORDS < s.c[s.bins[1][0]].n)
    ensures !RemainderHit(sz, s, nb)
  {}
}

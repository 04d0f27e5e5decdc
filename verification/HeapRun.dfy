/** Whole runs of the allocator, as the program that uses it sees them.

    The program holds blocks: for each chunk in use, the words stored in it.  (A block is named
    by the address of its chunk; the pointer the program holds is two words further on.)  Every
    call refines one step on blocks, so over every run the blocks behave like separate arrays
    that only the program's own writes change.
 */
module HeapRun {
  import opened HeapTags
  import opened HeapSizes
  import opened HeapLists
  import opened HeapFast
  import opened HeapBins
  import opened HeapFit
  import opened HeapRules
  import opened H = Heap

  type Blocks = map<int, seq<int>>

  // ---------- the program's view ----------

  ghost function Contents(mem: seq<int>, a: int, n: int): seq<int> {
    if 0 <= a && MINWORDS <= n && a + n < |mem| then mem[a + 2..a + n + 1] else []
  }

  ghost function View(mem: seq<int>, c: Chunks): Blocks {
    map a | a in c && c[a].kind == Live :: Contents(mem, a, c[a].n)
  }

  /** Blocks occupy separate words. */
  ghost predicate Apart(v: Blocks) {
    forall a, b | a in v && b in v && a < b :: a + |v[a]| <= b
  }

  // ---------- steps on blocks ----------

  datatype Op =
    | Alloc(bytes: nat, env: Env)
    | Release(p: int, give: nat)
    | Resize(p: int, bytes: nat, env: Env, give: nat)
    | Write(p: int, k: nat, value: int)

  ghost predicate Allocated(sz: Width, v: Blocks, v': Blocks, bytes: nat, p: int) {
    p !in v && p in v' && v' == v[p := v'[p]] && Bytes(sz, |v'[p]|) >= bytes
  }

  ghost function Min(a: int, b: int): int { if a < b then a else b }

  /** The block `p` became the block `q`, which is large enough and starts with the old contents. */
  ghost predicate Moved(sz: Width, v: Blocks, v': Blocks, p: int, bytes: nat, q: int)
    requires p in v
  {
    && q !in v - {p} && q in v' && v' == (v - {p})[q := v'[q]] && Bytes(sz, |v'[q]|) >= bytes
    && var k := Min(|v[p]|, |v'[q]|); v'[q][..k] == v[p][..k]
  }

  /** What one operation of the program may do to its blocks.  Operations on a block the program
      does not hold are not part of a run, and stand for doing nothing. */
  ghost predicate Step(sz: Width, v: Blocks, op: Op, v': Blocks) {
    match op
    case Alloc(bytes, _) => v' == v || exists p :: Allocated(sz, v, v', bytes, p)
    case Release(p, _) => v' == v - {p}
    case Resize(p, bytes, _, _) =>
      if p !in v then v' == v
      else if bytes == 0 then v' == v - {p}
      else v' == v || exists q :: Moved(sz, v, v', p, bytes, q)
    case Write(p, k, value) =>
      v' == if p in v && k < |v[p]| then v[p := v[p][k := value]] else v
  }

  // ---------- each call refines a step ----------

  lemma SameContents(m0: seq<int>, c0: Chunks, m1: seq<int>, a: int)
    requires |m1| == |m0| && a in c0 && c0[a].kind == Live
    requires forall x | Inside(c0, a, x) && 0 <= x < |m0| :: m1[x] == m0[x]
    ensures Contents(m1, a, c0[a].n) == Contents(m0, a, c0[a].n)
  {
    var n := c0[a].n;
    if 0 <= a && MINWORDS <= n && a + n < |m0| {
      forall x | a + 2 <= x < a + n + 1 ensures m1[x] == m0[x] { assert Inside(c0, a, x); }
    }
  }

  lemma KeptView(m0: seq<int>, c0: Chunks, m1: seq<int>, c1: Chunks, p: int)
    requires Kept(m0, c0, m1, c1, p)
    ensures View(m1, c1) - {p} == View(m0, c0) - {p}
  {
    var v0, v1 := View(m0, c0), View(m1, c1);
    forall a | a in v0 && a != p ensures a in v1 && v1[a] == v0[a] {
      SameContents(m0, c0, m1, a);
    }
    forall a | a in v1 && a != p ensures a in v0 { }
    assert v1 - {p} == v0 - {p};
  }

  lemma ViewApart(mem: seq<int>, c: Chunks, base: int, top: int)
    requires Tiling(c, base, top)
    ensures Apart(View(mem, c))
  {
  }

  /** The capacity of a chunk of at least the padded size is at least the request. */
  lemma RoomForRequest(sz: Width, mem: seq<int>, c: Chunks, base: int, top: int, p: int, bytes: nat)
    requires Tiling(c, base, top) && ARENA <= base && top < |mem| && p in c && c[p].kind == Live
    requires !RequestOutOfRange(sz, bytes) && (sz == 8 ==> SearchFits(RequestToSize(sz, bytes)))
    requires Words(sz, RequestToSize(sz, bytes)) <= c[p].n
    ensures |Contents(mem, p, c[p].n)| == c[p].n - 1 && Bytes(sz, c[p].n - 1) >= bytes
  {
    RequestWords(sz, bytes);
  }

  lemma AllocStep(sz: Width, m0: seq<int>, c0: Chunks, m1: seq<int>, c1: Chunks, base: int, top: int, p: int, bytes: nat)
    requires Tiling(c1, base, top) && ARENA <= base && top < |m1|
    requires !RequestOutOfRange(sz, bytes) && (sz == 8 ==> SearchFits(RequestToSize(sz, bytes)))
    requires Kept(m0, c0, m1, c1, p) && Granted(c0, c1, p, Words(sz, RequestToSize(sz, bytes)))
    ensures Allocated(sz, View(m0, c0), View(m1, c1), bytes, p)
  {
    hide Kept, Contents, RequestToSize, RequestOutOfRange, Words, Tiling;
    KeptView(m0, c0, m1, c1, p);
    RoomForRequest(sz, m1, c1, base, top, p, bytes);
    var v0, v1 := View(m0, c0), View(m1, c1);
    assert v0 - {p} == v0;
    assert v1 == (v1 - {p})[p := v1[p]];
  }

  lemma ReleaseStep(m0: seq<int>, c0: Chunks, m1: seq<int>, c1: Chunks, p: int)
    requires Kept(m0, c0, m1, c1, p) && !(p in c1 && c1[p].kind == Live)
    ensures View(m1, c1) == View(m0, c0) - {p}
  {
    hide Kept, Contents;
    KeptView(m0, c0, m1, c1, p);
    assert View(m1, c1) - {p} == View(m1, c1);
  }

  lemma NothingStep(m0: seq<int>, c0: Chunks, m1: seq<int>, c1: Chunks)
    requires Kept(m0, c0, m1, c1, -1) && -1 !in c0 && -1 !in c1
    ensures View(m1, c1) == View(m0, c0)
  {
    hide Kept, Contents;
    KeptView(m0, c0, m1, c1, -1);
    assert View(m1, c1) - {-1} == View(m1, c1);
    assert View(m0, c0) - {-1} == View(m0, c0);
  }

  lemma ResizeOthers(m0: seq<int>, c0: Chunks, m1: seq<int>, c1: Chunks, p: int, q: int, nb: int)
    requires Reallocated(m0, c0, m1, c1, p, q, nb) && c0[p].kind == Live
    ensures q !in View(m0, c0) - {p} && q in View(m1, c1)
    ensures View(m1, c1) == (View(m0, c0) - {p})[q := View(m1, c1)[q]]
  {
    var v0, v1 := View(m0, c0), View(m1, c1);
    forall a | a in v0 && a != p ensures a in v1 && v1[a] == v0[a] {
      SameContents(m0, c0, m1, a);
    }
    forall a | a in v1 && a != q ensures a in v0 && a != p { }
    assert v1 == (v0 - {p})[q := v1[q]];
  }

  lemma ResizeContents(m0: seq<int>, c0: Chunks, m1: seq<int>, c1: Chunks, p: int, q: int, nb: int)
    requires Reallocated(m0, c0, m1, c1, p, q, nb)
    requires 0 <= p && MINWORDS <= c0[p].n && p + c0[p].n < |m0|
    requires 0 <= q && MINWORDS <= c1[q].n && q + c1[q].n < |m1|
    ensures var s, t := Contents(m0, p, c0[p].n), Contents(m1, q, c1[q].n);
            var k := Min(|s|, |t|); t[..k] == s[..k]
  {
    var s, t := Contents(m0, p, c0[p].n), Contents(m1, q, c1[q].n);
    var k := Min(|s|, |t|);
    forall j | 0 <= j < k ensures t[j] == s[j] {
      assert m1[q + 2 + j] == m0[q + 2 + j - q + p];
    }
  }

  lemma ResizeStep(sz: Width, m0: seq<int>, c0: Chunks, b0: int, t0: int, m1: seq<int>, c1: Chunks, b1: int, t1: int, p: int, q: int, bytes: nat)
    requires Tiling(c0, b0, t0) && ARENA <= b0 && t0 < |m0| && Tiling(c1, b1, t1) && ARENA <= b1 && t1 < |m1|
    requires !RequestOutOfRange(sz, bytes) && (sz == 8 ==> SearchFits(RequestToSize(sz, bytes)))
    requires p in c0 && c0[p].kind == Live && Reallocated(m0, c0, m1, c1, p, q, Words(sz, RequestToSize(sz, bytes)))
    ensures Moved(sz, View(m0, c0), View(m1, c1), p, bytes, q)
  {
    hide Contents, RequestToSize, RequestOutOfRange, Words, Linked, Disjoint;
    ResizeOthers(m0, c0, m1, c1, p, q, Words(sz, RequestToSize(sz, bytes)));
    ResizeContents(m0, c0, m1, c1, p, q, Words(sz, RequestToSize(sz, bytes)));
    RoomForRequest(sz, m1, c1, b1, t1, q, bytes);
  }

  lemma WriteStep(mem: seq<int>, c: Chunks, p: int, k: nat, value: int)
    requires p in c && c[p].kind == Live && 0 <= p && MINWORDS <= c[p].n && p + c[p].n < |mem| && k < c[p].n - 1
    requires Kept(mem, c, mem[p + 2 + k := value], c, p)
    ensures View(mem[p + 2 + k := value], c) == View(mem, c)[p := View(mem, c)[p][k := value]]
  {
    hide Kept;
    var mem' := mem[p + 2 + k := value];
    KeptView(mem, c, mem', c, p);
    var v, v' := View(mem, c), View(mem', c);
    assert v'[p] == v[p][k := value];
    assert v' == (v' - {p})[p := v'[p]];
    assert v[p := v'[p]] == (v - {p})[p := v'[p]];
  }

  // ---------- runs ----------

  /** A run: the first view, then one view after each operation. */
  ghost predicate Runs(sz: Width, trace: seq<Blocks>, ops: seq<Op>) {
    && |trace| == |ops| + 1
    && (forall i {:trigger ops[i]} | 0 <= i < |ops| :: Step(sz, trace[i], ops[i], trace[i + 1]))
  }

  /** A request the 64-bit build sizes correctly: below 4 GiB, or refused anyway. */
  predicate Sizable(sz: Width, op: Op) {
    (op.Alloc? || op.Resize?) && sz == 8 ==> RequestOutOfRange(sz, op.bytes) || SearchFits(RequestToSize(sz, op.bytes))
  }

  /** The blocks the program knows it holds are exactly the chunks in use. */
  ghost predicate Held(h: Heap, held: set<int>)
    reads h`c
  {
    forall a :: a in held <==> a in h.c && h.c[a].kind == Live
  }

  lemma Opened(h: Heap, p: int)
    requires h.Valid() && p in h.c
    ensures h.Open() && Tiling(h.c, h.base, h.top) && ARENA <= h.base && h.top < |h.mem| && ARENA <= p
  {
    TilingPositive(h.c, h.base, h.top);
  }

  lemma NoNegative(h: Heap)
    requires h.Valid()
    ensures -1 !in h.c
  {
    if h.maxFast != 0 && h.top != BinAt(1) { TilingPositive(h.c, h.base, h.top); }
  }

  /** One call of malloc. */
  method ExecuteAlloc(h: Heap, bytes: nat, env: Env, held: set<int>) returns (held': set<int>)
    requires h.Valid() && Sizable(h.sz, Alloc(bytes, env)) && Held(h, held)
    modifies h
    ensures h.Valid() && Held(h, held')
    ensures Step(h.sz, View(old(h.mem), old(h.c)), Alloc(bytes, env), View(h.mem, h.c))
  {
    hide Heap.Core, Heap.Zeroed, Heap.Ready, Kept, View, RequestToSize, RequestOutOfRange, Words, Settled, Chosen, Tiling, Served;
    ghost var m0, c0 := h.mem, h.c;
    NoNegative(h);
    var m, origin, mid, stage := h.Malloc(bytes, env);
    NoNegative(h);
    held' := if m == 0 then held else held + {m - 2};
    if m != 0 {
      Opened(h, m - 2);
      AllocStep(h.sz, m0, c0, h.mem, h.c, h.base, h.top, m - 2, bytes);
    } else if 0 < bytes && !RequestOutOfRange(h.sz, bytes) {
      NothingStep(m0, c0, h.mem, h.c);
    }
    HeldKept(h, m0, c0, held, held', m);
  }

  lemma HeldKept(h: Heap, m0: seq<int>, c0: Chunks, held: set<int>, held': set<int>, m: int)
    requires forall a :: a in held <==> a in c0 && c0[a].kind == Live
    requires m == 0 ==> held' == held && (h.c == c0 || (Kept(m0, c0, h.mem, h.c, -1) && -1 !in c0 && -1 !in h.c))
    requires m != 0 ==> held' == held + {m - 2} && Kept(m0, c0, h.mem, h.c, m - 2) && m - 2 in h.c && h.c[m - 2].kind == Live
    ensures Held(h, held')
  {
  }

  /** One call of free, of a block the program holds. */
  method ExecuteRelease(h: Heap, p: int, give: nat, held: set<int>) returns (held': set<int>)
    requires h.Valid() && Held(h, held)
    modifies h
    ensures h.Valid() && Held(h, held')
    ensures Step(h.sz, View(old(h.mem), old(h.c)), Release(p, give), View(h.mem, h.c))
  {
    hide Heap.Core, Heap.Zeroed, Heap.Ready, Kept, View, RequestToSize, Tiling, FreedBy;
    ghost var m0, c0 := h.mem, h.c;
    held' := held - {p};
    if p in held {
      Opened(h, p);
      var _, _ := h.Free(p + 2, give);
      ReleaseStep(m0, c0, h.mem, h.c, p);
      HeldFreed(h, m0, c0, held, p);
    } else {
      NotHeld(h.mem, h.c, p);
      assert held' == held;
    }
  }

  lemma HeldFreed(h: Heap, m0: seq<int>, c0: Chunks, held: set<int>, p: int)
    requires forall a :: a in held <==> a in c0 && c0[a].kind == Live
    requires Kept(m0, c0, h.mem, h.c, p) && !(p in h.c && h.c[p].kind == Live)
    ensures Held(h, held - {p})
  {
  }

  lemma NotHeld(mem: seq<int>, c: Chunks, p: int)
    requires !(p in c && c[p].kind == Live)
    ensures p !in View(mem, c) && View(mem, c) == View(mem, c) - {p}
  {
  }

  lemma IsHeld(mem: seq<int>, c: Chunks, p: int)
    requires p in c && c[p].kind == Live
    ensures p in View(mem, c)
  {
  }

  /** One call of realloc, on a block the program holds. */
  method ExecuteResize(h: Heap, p: int, bytes: nat, env: Env, give: nat, held: set<int>) returns (held': set<int>)
    requires h.Valid() && Sizable(h.sz, Resize(p, bytes, env, give)) && Held(h, held)
    modifies h
    ensures h.Valid() && Held(h, held')
    ensures Step(h.sz, View(old(h.mem), old(h.c)), Resize(p, bytes, env, give), View(h.mem, h.c))
  {
    hide Heap.Core, Heap.Zeroed, Heap.Ready, Kept, View, RequestToSize, RequestOutOfRange, Words, Tiling, Reallocated, Granted, FreedBy;
    ghost var m0, c0, b0, t0 := h.mem, h.c, h.base, h.top;
    held' := held;
    if p !in held {
      NotHeld(h.mem, h.c, p);
      return;
    }
    IsHeld(h.mem, h.c, p);
    Opened(h, p);
    NoNegative(h);
    var r, _ := h.Realloc(p + 2, bytes, env, give);
    NoNegative(h);
    if bytes == 0 {
      held' := held - {p};
      ReleaseStep(m0, c0, h.mem, h.c, p);
      HeldFreed(h, m0, c0, held, p);
    } else if r == 0 {
      NothingStep(m0, c0, h.mem, h.c);
      HeldKept(h, m0, c0, held, held, 0);
    } else {
      held' := held - {p} + {r - 2};
      HeldMoved(h, m0, c0, held, p, r - 2, Words(h.sz, RequestToSize(h.sz, bytes)));
      Opened(h, r - 2);
      ResizeStep(h.sz, m0, c0, b0, t0, h.mem, h.c, h.base, h.top, p, r - 2, bytes);
    }
  }

  lemma HeldMoved(h: Heap, m0: seq<int>, c0: Chunks, held: set<int>, p: int, q: int, nb: int)
    requires forall a :: a in held <==> a in c0 && c0[a].kind == Live
    requires Reallocated(m0, c0, h.mem, h.c, p, q, nb)
    ensures q in h.c && Held(h, held - {p} + {q})
  {
  }

  /** The program writes word `k` of a block it holds. */
  method ExecuteWrite(h: Heap, p: int, k: nat, value: int, held: set<int>) returns (held': set<int>)
    requires h.Valid() && Held(h, held)
    modifies h
    ensures h.Valid() && Held(h, held')
    ensures Step(h.sz, View(old(h.mem), old(h.c)), Write(p, k, value), View(h.mem, h.c))
  {
    hide Heap.Core, Heap.Zeroed, Heap.Ready, Kept, View, RequestToSize, Tiling;
    held' := held;
    if p !in held {
      NotHeld(h.mem, h.c, p);
      return;
    }
    IsHeld(h.mem, h.c, p);
    Opened(h, p);
    h.OneInRange(p);
    BlockLength(h.mem, h.c, h.base, h.top, p);
    if k < SizeOf(h.mem[p + 1]) - 1 {
      assert Inside(h.c, p, p + 2 + k);
      h.Store(p, p + 2 + k, value);
      WriteStep(old(h.mem), h.c, p, k, value);
    }
  }

  lemma BlockLength(mem: seq<int>, c: Chunks, base: int, top: int, p: int)
    requires Tiling(c, base, top) && ARENA <= base && top < |mem| && p in c && c[p].kind == Live
    ensures p in View(mem, c) && |View(mem, c)[p]| == c[p].n - 1 && MINWORDS <= c[p].n
  {
  }

  /** One operation of the program, carried out by the heap. */
  method Execute(h: Heap, op: Op, held: set<int>) returns (held': set<int>)
    requires h.Valid() && Sizable(h.sz, op) && Held(h, held)
    modifies h
    ensures h.Valid() && Held(h, held') && Step(h.sz, View(old(h.mem), old(h.c)), op, View(h.mem, h.c))
  {
    hide Heap.Core, Heap.Zeroed, Heap.Ready, View, Step, Sizable;
    match op
    case Alloc(bytes, env) => held' := ExecuteAlloc(h, bytes, env, held);
    case Release(p, give) => held' := ExecuteRelease(h, p, give, held);
    case Resize(p, bytes, env, give) => held' := ExecuteResize(h, p, bytes, env, give, held);
    case Write(p, k, value) => held' := ExecuteWrite(h, p, k, value, held);
  }

  /** Every run of the heap is a run on blocks: whatever the program asks for, in whatever order,
      and whatever the system grants, the blocks it holds stay apart and keep their contents. */
  method Run(h: Heap, ops: seq<Op>, held: set<int>) returns (held': set<int>, ghost trace: seq<Blocks>)
    requires h.Valid() && Held(h, held) && forall i | 0 <= i < |ops| :: Sizable(h.sz, ops[i])
    modifies h
    ensures h.Valid() && Held(h, held')
    ensures Runs(h.sz, trace, ops) && trace[0] == View(old(h.mem), old(h.c)) && trace[|ops|] == View(h.mem, h.c)
    ensures forall i | 0 <= i <= |ops| :: Apart(trace[i])
  {
    hide Heap.Core, Heap.Zeroed, Heap.Ready, View, Step, Sizable, Apart;
    held' := held;
    trace := [View(h.mem, h.c)];
    StaysApart(h);
    var i := 0;
    while i < |ops|
      invariant 0 <= i <= |ops| && h.Valid() && Held(h, held')
      invariant |trace| == i + 1 && trace[0] == View(old(h.mem), old(h.c)) && trace[i] == View(h.mem, h.c)
      invariant forall j {:trigger ops[j]} | 0 <= j < i :: Step(h.sz, trace[j], ops[j], trace[j + 1])
      invariant forall j | 0 <= j <= i :: Apart(trace[j])
    {
      held' := Execute(h, ops[i], held');
      StaysApart(h);
      trace := trace + [View(h.mem, h.c)];
      i := i + 1;
    }
  }

  lemma StaysApart(h: Heap)
    requires h.Valid()
    ensures Apart(View(h.mem, h.c))
  {
    if h.maxFast != 0 && h.top != BinAt(1) { ViewApart(h.mem, h.c, h.base, h.top); }
  }
}

/** Merging bios and requests, and mapping a request for the hardware: the number of entries the
    mapping produces never exceeds the number the request was counted to have. */
module BlkMerge {
  import opened Segments

  /** A bio: its pieces, its cached segment count (valid or not), and the cached sizes of its first
      and last segments. */
  datatype Bio = Bio(bvecs: seq<BVec>, physSegments: nat, segValid: bool, frontSize: nat, backSize: nat)

  function All(bios: seq<Bio>): seq<BVec> {
    if bios == [] then [] else All(bios[..|bios| - 1]) + bios[|bios| - 1].bvecs
  }

  lemma {:induction false} AllConcat(p: seq<Bio>, r: seq<Bio>)
    ensures All(p + r) == All(p) + All(r)
  {
    if r == [] {
      assert p + r == p;
    } else {
      var init, last := r[..|r| - 1], r[|r| - 1];
      AllConcat(p, init);
      assert (p + r)[..|p + r| - 1] == p + init && (p + r)[|p + r| - 1] == last;
      assert All(p) + All(init) + last.bvecs == All(p) + (All(init) + last.bvecs);
    }
  }

  // The segments found so far by a loop over the pieces

  ghost predicate Found(q: Limits, counting: bool, done: seq<BVec>, parts: seq<seq<BVec>>, n: nat, size: nat)
    requires q.Ok()
  {
    && Cut(q, counting, parts) && Flatten(parts) == done && |parts| == n
    && (done == [] <==> n == 0)
    && (n > 0 ==> Sum(parts[n - 1]) == size)
  }

  /** The rest of the loop will open as many segments as the greedy count needs. */
  ghost predicate OnTrack(q: Limits, counting: bool, done: seq<BVec>, left: seq<BVec>, n: nat, size: nat)
    requires q.Ok()
  {
    if done == [] then n == 0
    else n + More(q, counting, done[|done| - 1], size, left) == Greedy(q, counting, done + left)
  }

  lemma FoundNew(q: Limits, counting: bool, done: seq<BVec>, parts: seq<seq<BVec>>, n: nat, size: nat, b: BVec)
    requires q.Ok() && Found(q, counting, done, parts, n, size)
    ensures Found(q, counting, done + [b], parts + [[b]], n + 1, b.len)
  {
    assert (parts + [[b]])[..n] == parts;
    assert Sum([b]) == Sum([b][..0]) + b.len;
    assert Segment(q, counting, [b]);
  }

  lemma FoundJoined(q: Limits, counting: bool, done: seq<BVec>, parts: seq<seq<BVec>>, n: nat, size: nat, b: BVec)
    requires q.Ok() && Found(q, counting, done, parts, n, size) && n > 0
    requires Joins(q, counting, done[|done| - 1], b) && size + b.len <= q.maxSegmentSize
    ensures Found(q, counting, done + [b], parts[..n - 1] + [parts[n - 1] + [b]], n, size + b.len)
  {
    var a := parts[n - 1];
    assert Segment(q, counting, a);
    assert a[|a| - 1] == done[|done| - 1];
    var c := a + [b];
    assert c[..|a|] == a;
    forall i | 0 <= i < |c| - 1
      ensures Joins(q, counting, c[i], c[i + 1])
    {
      if i < |a| - 1 {
        assert Joins(q, counting, a[i], a[i + 1]);
      }
    }
    var r := parts[..n - 1] + [c];
    assert r[..n - 1] == parts[..n - 1];
  }

  lemma TrackStep(q: Limits, counting: bool, done: seq<BVec>, left: seq<BVec>, n: nat, size: nat)
    requires q.Ok() && left != [] && OnTrack(q, counting, done, left, n, size)
    ensures
      if done != [] && Joins(q, counting, done[|done| - 1], left[0]) && size + left[0].len <= q.maxSegmentSize
      then OnTrack(q, counting, done + [left[0]], left[1..], n, size + left[0].len)
      else OnTrack(q, counting, done + [left[0]], left[1..], n + 1, left[0].len)
  {
    assert done + [left[0]] + left[1..] == done + left;
  }

  lemma AllFirst(bios: seq<Bio>)
    requires bios != []
    ensures All(bios) == bios[0].bvecs + All(bios[1..])
  {
    assert bios == [bios[0]] + bios[1..];
    AllConcat([bios[0]], bios[1..]);
    assert All([bios[0]]) == All([bios[0]][..0]) + bios[0].bvecs;
  }

  /** The state of a loop over pieces: `last` is the piece before, and the first segment, once
      closed, is no longer than `front`. */
  ghost predicate Looping(q: Limits, counting: bool, done: seq<BVec>, left: seq<BVec>, parts: seq<seq<BVec>>,
                          n: nat, size: nat, last: BVec, front: nat)
    requires q.Ok()
  {
    && Found(q, counting, done, parts, n, size)
    && OnTrack(q, counting, done, left, n, size)
    && (n > 0 ==> last == done[|done| - 1])
    && (n > 1 ==> Sum(parts[0]) <= front)
  }

  lemma LoopNew(q: Limits, counting: bool, done: seq<BVec>, left: seq<BVec>, parts: seq<seq<BVec>>, n: nat, size: nat, last: BVec, front: nat, front': nat)
    requires q.Ok() && left != [] && Looping(q, counting, done, left, parts, n, size, last, front)
    requires n > 0 ==> !(Joins(q, counting, last, left[0]) && size + left[0].len <= q.maxSegmentSize)
    requires front <= front' && (n == 1 ==> size <= front')
    ensures Looping(q, counting, done + [left[0]], left[1..], parts + [[left[0]]], n + 1, left[0].len, left[0], front')
  {
    hide Cut, Flatten, Sum, Joins, More, Greedy, OnTrack;
    FoundNew(q, counting, done, parts, n, size, left[0]);
    TrackStep(q, counting, done, left, n, size);
  }

  lemma LoopJoined(q: Limits, counting: bool, done: seq<BVec>, left: seq<BVec>, parts: seq<seq<BVec>>, n: nat, size: nat, last: BVec, front: nat)
    returns (parts': seq<seq<BVec>>)
    requires q.Ok() && left != [] && Looping(q, counting, done, left, parts, n, size, last, front) && n > 0
    requires Joins(q, counting, last, left[0]) && size + left[0].len <= q.maxSegmentSize
    ensures |parts| == n && Sum(parts[n - 1]) == size
    ensures parts' == parts[..n - 1] + [parts[n - 1] + [left[0]]]
    ensures Looping(q, counting, done + [left[0]], left[1..], parts', n, size + left[0].len, left[0], front)
  {
    hide Cut, Flatten, Sum, Joins, More, Greedy, OnTrack;
    parts' := parts[..n - 1] + [parts[n - 1] + [left[0]]];
    FoundJoined(q, counting, done, parts, n, size, left[0]);
    TrackStep(q, counting, done, left, n, size);
  }

  /** The end of a counting loop. */
  lemma LoopEnd(q: Limits, counting: bool, done: seq<BVec>, parts: seq<seq<BVec>>, n: nat, size: nat, last: BVec, front: nat, back: nat)
    requires q.Ok() && Looping(q, counting, done, [], parts, n, size, last, front)
    requires (n == 1 ==> size <= front) && size <= back
    ensures n == Greedy(q, counting, done)
    ensures done != [] ==> Fits(q, counting, done, n, front, back)
  {
    hide Segment, Flatten, Sum, Joins;
    assert done + [] == done;
    if done != [] {
      assert Cut(q, counting, parts);
    }
  }

  /** The counting loop of __blk_recalc_rq_segments over the pieces of one bio, with `after` still
      to come. */
  method CountPieces(q: Limits, bvecs: seq<BVec>, n0: nat, size0: nat, last0: BVec, highPrev0: bool, front0: nat,
                     ghost done0: seq<BVec>, ghost after: seq<BVec>, ghost parts0: seq<seq<BVec>>)
    returns (n: nat, size: nat, last: BVec, highPrev: bool, front: nat, ghost parts: seq<seq<BVec>>)
    requires q.Ok()
    requires Looping(q, true, done0, bvecs + after, parts0, n0, size0, last0, front0)
    requires highPrev0 == (n0 == 0 || High(q, last0))
    ensures Looping(q, true, done0 + bvecs, after, parts, n, size, last, front)
    ensures highPrev == (n == 0 || High(q, last)) && front0 <= front
  {
    hide Looping, Joins;
    n, size, last, highPrev, front, parts := n0, size0, last0, highPrev0, front0, parts0;
    var j := 0;
    assert bvecs[0..] == bvecs && done0 + bvecs[..0] == done0;
    while j < |bvecs|
      invariant 0 <= j <= |bvecs| && front0 <= front
      invariant Looping(q, true, done0 + bvecs[..j], bvecs[j..] + after, parts, n, size, last, front)
      invariant highPrev == (n == 0 || High(q, last))
    {
      var b := bvecs[j];
      ghost var done, left := done0 + bvecs[..j], bvecs[j..] + after;
      assert left[1..] == bvecs[j + 1..] + after && done + [b] == done0 + bvecs[..j + 1];
      var high := High(q, b);
      JoinsMeans(q, last, b);
      if !high && !highPrev && q.cluster && size + b.len <= q.maxSegmentSize && Adjacent(last, b) && SameWindow(q, last, b) {
        parts := LoopJoined(q, true, done, left, parts, n, size, last, front);
        size := size + b.len;
      } else {
        ghost var front1 := front;
        if n == 1 && size > front {
          front := size;
        }
        LoopNew(q, true, done, left, parts, n, size, last, front1, front);
        parts := parts + [[b]];
        n, size, highPrev := n + 1, b.len, high;
      }
      last := b;
      j := j + 1;
    }
    assert bvecs[j..] + after == after && bvecs[..j] == bvecs;
  }

  /** __blk_recalc_rq_segments: the segments of a chain of bios, and the new bounds on its first
      and last segments. */
  method Recount(q: Limits, bios: seq<Bio>) returns (n: nat, front: nat, back: nat)
    requires q.Ok()
    ensures n == Greedy(q, true, All(bios))
    ensures All(bios) != [] ==> Fits(q, true, All(bios), n, front, back)
    ensures bios != [] ==> bios[0].frontSize <= front && bios[|bios| - 1].backSize <= back
  {
    hide Looping, Joins, Greedy, Fits;
    if bios == [] {
      NothingToCount(q, true);
      return 0, 0, 0;
    }
    n, front := 0, bios[0].frontSize;
    var size: nat := 0;
    var highPrev, last := true, BVec(0, 0, 0);
    ghost var parts := [];
    LoopStart(q, true, All(bios), last, front);
    var i := 0;
    assert bios[0..] == bios && bios[..0] == [];
    while i < |bios|
      invariant 0 <= i <= |bios| && bios[0].frontSize <= front
      invariant Looping(q, true, All(bios[..i]), All(bios[i..]), parts, n, size, last, front)
      invariant highPrev == (n == 0 || High(q, last))
    {
      AllFirst(bios[i..]);
      assert bios[i..][1..] == bios[i + 1..] && bios[..i + 1][..i] == bios[..i];
      n, size, last, highPrev, front, parts :=
        CountPieces(q, bios[i].bvecs, n, size, last, highPrev, front, All(bios[..i]), All(bios[i + 1..]), parts);
      i := i + 1;
    }
    assert bios[..i] == bios && bios[i..] == [];
    ghost var front0 := front;
    if n == 1 && size > front {
      front := size;
    }
    back := bios[|bios| - 1].backSize;
    if size > back {
      back := size;
    }
    LoopLoosen(q, true, All(bios), [], parts, n, size, last, front0, front);
    LoopEnd(q, true, All(bios), parts, n, size, last, front, back);
  }

  lemma LoopLoosen(q: Limits, counting: bool, done: seq<BVec>, left: seq<BVec>, parts: seq<seq<BVec>>, n: nat, size: nat, last: BVec, front: nat, front': nat)
    requires q.Ok() && Looping(q, counting, done, left, parts, n, size, last, front) && front <= front'
    ensures Looping(q, counting, done, left, parts, n, size, last, front')
  {}

  lemma NothingToCount(q: Limits, counting: bool)
    requires q.Ok()
    ensures Greedy(q, counting, []) == 0
  {}

  lemma LoopStart(q: Limits, counting: bool, left: seq<BVec>, last: BVec, front: nat)
    requires q.Ok()
    ensures Looping(q, counting, [], left, [], 0, 0, last, front)
  {}

  lemma JoinsMeans(q: Limits, a: BVec, b: BVec)
    requires q.Ok()
    ensures Joins(q, true, a, b) <==> !High(q, b) && !High(q, a) && q.cluster && Adjacent(a, b) && SameWindow(q, a, b)
    ensures Joins(q, false, a, b) <==> q.cluster && Adjacent(a, b) && SameWindow(q, a, b)
  {}

  // Mapping

  /** A scatterlist entry. */
  datatype Sg = Sg(addr: nat, len: nat)

  function Run(addr: nat, len: nat): seq<nat> { seq(len, i requires 0 <= i < len => addr + i) }

  /** The physical bytes of the pieces, in order. */
  function PieceBytes(xs: seq<BVec>): seq<nat> {
    if xs == [] then [] else PieceBytes(xs[..|xs| - 1]) + Run(xs[|xs| - 1].addr, xs[|xs| - 1].len)
  }

  function SgBytes(sgs: seq<Sg>): seq<nat> {
    if sgs == [] then [] else SgBytes(sgs[..|sgs| - 1]) + Run(sgs[|sgs| - 1].addr, sgs[|sgs| - 1].len)
  }

  predicate Covers(sg: Sg, xs: seq<BVec>) {
    xs != [] && sg.addr == xs[0].addr && sg.len == Sum(xs)
  }

  ghost predicate Mapped(sgs: seq<Sg>, parts: seq<seq<BVec>>) {
    |sgs| == |parts| && forall i :: 0 <= i < |sgs| ==> Covers(sgs[i], parts[i])
  }

  lemma {:induction false} BytesConcat(xs: seq<BVec>, ys: seq<BVec>)
    ensures PieceBytes(xs + ys) == PieceBytes(xs) + PieceBytes(ys)
  {
    hide Run;
    if ys == [] {
      assert xs + ys == xs;
    } else {
      var init, last := ys[..|ys| - 1], ys[|ys| - 1];
      BytesConcat(xs, init);
      assert (xs + ys)[..|xs + ys| - 1] == xs + init && (xs + ys)[|xs + ys| - 1] == last;
      var tail := Run(last.addr, last.len);
      assert PieceBytes(xs) + PieceBytes(init) + tail == PieceBytes(xs) + (PieceBytes(init) + tail);
    }
  }

  /** The pieces of a segment lie one after the other. */
  lemma {:induction false} SegmentBytes(q: Limits, counting: bool, xs: seq<BVec>)
    requires q.Ok() && xs != [] && forall i :: 0 <= i < |xs| - 1 ==> Joins(q, counting, xs[i], xs[i + 1])
    ensures PieceBytes(xs) == Run(xs[0].addr, Sum(xs))
    ensures xs[0].addr + Sum(xs) == xs[|xs| - 1].addr + xs[|xs| - 1].len
  {
    var init := xs[..|xs| - 1];
    if init == [] {
      assert PieceBytes(init) == [] && Sum(init) == 0;
    } else {
      SegmentBytes(q, counting, init);
      assert Joins(q, counting, xs[|xs| - 2], xs[|xs| - 2 + 1]);
    }
  }

  /** Mapping loses no byte, adds none and keeps their order. */
  lemma {:induction false} MappedBytes(q: Limits, counting: bool, sgs: seq<Sg>, parts: seq<seq<BVec>>)
    requires q.Ok() && Cut(q, counting, parts) && Mapped(sgs, parts)
    ensures SgBytes(sgs) == PieceBytes(Flatten(parts))
  {
    if sgs != [] {
      var n := |sgs| - 1;
      MappedBytes(q, counting, sgs[..n], parts[..n]);
      assert Covers(sgs[n], parts[n]) && Segment(q, counting, parts[n]);
      SegmentBytes(q, counting, parts[n]);
      BytesConcat(Flatten(parts[..n]), parts[n]);
    }
  }

  lemma MappedNew(sgs: seq<Sg>, parts: seq<seq<BVec>>, b: BVec)
    requires Mapped(sgs, parts)
    ensures Mapped(sgs + [Sg(b.addr, b.len)], parts + [[b]])
  {
    assert Sum([b]) == Sum([b][..0]) + b.len;
  }

  lemma MappedJoined(sgs: seq<Sg>, parts: seq<seq<BVec>>, n: nat, size: nat, b: BVec)
    requires Mapped(sgs, parts) && |sgs| == n > 0 && Sum(parts[n - 1]) == size
    ensures sgs[n - 1].len == size
    ensures Mapped(sgs[n - 1 := sgs[n - 1].(len := size + b.len)], parts[..n - 1] + [parts[n - 1] + [b]])
  {
    assert Covers(sgs[n - 1], parts[n - 1]);
    assert (parts[n - 1] + [b])[..|parts[n - 1]|] == parts[n - 1];
  }

  /** A segment of several pieces crosses no boundary. */
  lemma {:induction false} SegmentInWindow(q: Limits, counting: bool, xs: seq<BVec>)
    requires q.Ok() && |xs| > 1 && forall i :: 0 <= i < |xs| - 1 ==> Joins(q, counting, xs[i], xs[i + 1])
    requires forall i :: 0 <= i < |xs| ==> xs[i].len > 0
    ensures xs[0].addr / q.window == (xs[0].addr + Sum(xs) - 1) / q.window
  {
    var n := |xs|;
    SegmentBytes(q, counting, xs);
    assert Joins(q, counting, xs[n - 2], xs[n - 2 + 1]);
    if n > 2 {
      var init := xs[..n - 1];
      SegmentInWindow(q, counting, init);
      SegmentBytes(q, counting, init);
      Between(q.window, xs[0].addr, xs[n - 2].addr, xs[0].addr + Sum(init) - 1);
    }
  }

  lemma Between(w: nat, a: nat, b: nat, c: nat)
    requires w > 0 && a <= b <= c && a / w == c / w
    ensures b / w == a / w
  {
    DivMonotone(w, a, b);
    DivMonotone(w, b, c);
  }

  lemma DivMonotone(w: nat, a: nat, b: nat)
    requires w > 0 && a <= b
    ensures a / w <= b / w
  {
    var m, n := a / w, b / w;
    assert a == w * m + a % w && b == w * n + b % w;
    Scale(w, m, n);
  }

  lemma {:induction false} Scale(w: nat, m: nat, n: nat)
    ensures m >= n + 1 ==> w * m >= w * n + w
  {
    if m > n + 1 {
      Scale(w, m - 1, n);
      assert w * m == w * (m - 1) + w;
    } else if m == n + 1 {
      assert w * m == w * n + w;
    }
  }

  /** The mapping loop of blk_rq_map_sg over the pieces of one bio. */
  method MapPieces(q: Limits, bvecs: seq<BVec>, sgs0: seq<Sg>, last0: BVec,
                   ghost done0: seq<BVec>, ghost after: seq<BVec>, ghost parts0: seq<seq<BVec>>, ghost size0: nat, ghost front0: nat)
    returns (sgs: seq<Sg>, last: BVec, ghost parts: seq<seq<BVec>>, ghost size: nat, ghost front: nat)
    requires q.Ok() && Mapped(sgs0, parts0)
    requires Looping(q, false, done0, bvecs + after, parts0, |sgs0|, size0, last0, front0)
    ensures Mapped(sgs, parts)
    ensures Looping(q, false, done0 + bvecs, after, parts, |sgs|, size, last, front)
  {
    hide Looping, Joins, Mapped;
    sgs, last, parts, size, front := sgs0, last0, parts0, size0, front0;
    var j := 0;
    assert bvecs[0..] == bvecs && done0 + bvecs[..0] == done0;
    while j < |bvecs|
      invariant 0 <= j <= |bvecs| && Mapped(sgs, parts)
      invariant Looping(q, false, done0 + bvecs[..j], bvecs[j..] + after, parts, |sgs|, size, last, front)
    {
      var b := bvecs[j];
      ghost var done, left := done0 + bvecs[..j], bvecs[j..] + after;
      assert left[1..] == bvecs[j + 1..] + after && done + [b] == done0 + bvecs[..j + 1];
      JoinsMeans(q, last, b);
      var n := |sgs|;
      OpenSize(q, done, left, parts, sgs, size, last, front);
      if n > 0 && q.cluster && sgs[n - 1].len + b.len <= q.maxSegmentSize && Adjacent(last, b) && SameWindow(q, last, b) {
        MappedJoined(sgs, parts, n, size, b);
        parts := LoopJoined(q, false, done, left, parts, n, size, last, front);
        sgs := sgs[n - 1 := sgs[n - 1].(len := sgs[n - 1].len + b.len)];
        size := size + b.len;
      } else {
        LoopNew(q, false, done, left, parts, n, size, last, front, front + size);
        MappedNew(sgs, parts, b);
        parts, front, size := parts + [[b]], front + size, b.len;
        sgs := sgs + [Sg(b.addr, b.len)];
      }
      last := b;
      j := j + 1;
    }
    assert bvecs[j..] + after == after && bvecs[..j] == bvecs;
  }

  lemma OpenSize(q: Limits, done: seq<BVec>, left: seq<BVec>, parts: seq<seq<BVec>>, sgs: seq<Sg>, size: nat, last: BVec, front: nat)
    requires q.Ok() && Mapped(sgs, parts) && Looping(q, false, done, left, parts, |sgs|, size, last, front)
    ensures |sgs| > 0 ==> |parts| == |sgs| && sgs[|sgs| - 1].len == size == Sum(parts[|sgs| - 1])
  {
    if |sgs| > 0 {
      assert Covers(sgs[|sgs| - 1], parts[|sgs| - 1]);
    }
  }

  /** blk_rq_map_sg, before padding and draining: the fewest entries that are segments, covering
      exactly the bytes of the chain. */
  method MapChain(q: Limits, bios: seq<Bio>) returns (sgs: seq<Sg>, ghost parts: seq<seq<BVec>>)
    requires q.Ok()
    ensures |sgs| == Greedy(q, false, All(bios))
    ensures Cut(q, false, parts) && Flatten(parts) == All(bios) && Mapped(sgs, parts)
    ensures SgBytes(sgs) == PieceBytes(All(bios))
  {
    hide Looping, Joins, Greedy, Mapped, PieceBytes, SgBytes;
    sgs, parts := [], [];
    var last := BVec(0, 0, 0);
    ghost var size: nat, front: nat := 0, 0;
    LoopStart(q, false, All(bios), last, front);
    assert Mapped(sgs, parts) by { NothingMapped(); }
    var i := 0;
    assert bios[0..] == bios && bios[..0] == [];
    while i < |bios|
      invariant 0 <= i <= |bios| && Mapped(sgs, parts)
      invariant Looping(q, false, All(bios[..i]), All(bios[i..]), parts, |sgs|, size, last, front)
    {
      AllFirst(bios[i..]);
      assert bios[i..][1..] == bios[i + 1..] && bios[..i + 1][..i] == bios[..i];
      sgs, last, parts, size, front := MapPieces(q, bios[i].bvecs, sgs, last, All(bios[..i]), All(bios[i + 1..]), parts, size, front);
      i := i + 1;
    }
    assert bios[..i] == bios && bios[i..] == [];
    MapEnd(q, All(bios), parts, |sgs|, size, last, front);
    MappedBytes(q, false, sgs, parts);
  }

  lemma NothingMapped()
    ensures Mapped([], [])
  {}

  lemma MapEnd(q: Limits, done: seq<BVec>, parts: seq<seq<BVec>>, n: nat, size: nat, last: BVec, front: nat)
    requires q.Ok() && Looping(q, false, done, [], parts, n, size, last, front)
    ensures n == Greedy(q, false, done) && Cut(q, false, parts) && Flatten(parts) == done
  {
    assert done + [] == done;
  }

  // Requests

  /** A bio carries data, and a count marked valid is one. */
  ghost predicate BioOk(q: Limits, b: Bio)
    requires q.Ok()
  {
    b.bvecs != [] && (b.segValid ==> Fits(q, false, b.bvecs, b.physSegments, b.frontSize, b.backSize))
  }

  /** The segments a bio counts. */
  function SegmentsOf(q: Limits, b: Bio): nat
    requires q.Ok()
  {
    if b.segValid then b.physSegments else Greedy(q, true, b.bvecs)
  }

  /** The recount of a bio whose cached count is not valid; cached sizes only grow. */
  method Refresh(q: Limits, b: Bio) returns (c: Bio)
    requires q.Ok() && b.bvecs != []
    ensures c.bvecs == b.bvecs && c.segValid
    ensures b.frontSize <= c.frontSize && b.backSize <= c.backSize
    ensures if b.segValid then c == b else BioOk(q, c)
    ensures c.physSegments == SegmentsOf(q, b)
  {
    hide Fits, Greedy;
    if b.segValid {
      return b;
    }
    var n, front, back := Recount(q, [b]);
    assert All([b]) == b.bvecs by { AllFirst([b]); }
    FitsLoosen(q, true, b.bvecs, n, front, back, front, back);
    c := b.(physSegments := n, segValid := true, frontSize := front, backSize := back);
  }

  function Sectors(xs: seq<BVec>): nat { Sum(xs) / 512 }

  class Request {
    const q: Limits
    const packet: bool
    const write: bool
    const disk: nat
    // the first sector
    var pos: int
    var bios: seq<Bio>
    var nrPhysSegments: nat
    var noMerge: bool
    // carries a barrier flag, or has been started
    var pinned: bool
    var special: bool

    ghost predicate Valid()
      reads this
    {
      && q.Ok() && bios != []
      && (forall i :: 0 <= i < |bios| ==> bios[i].bvecs != [])
      && Fits(q, false, All(bios), nrPhysSegments, bios[0].frontSize, bios[|bios| - 1].backSize)
    }

    ghost function Pieces(): seq<BVec>
      reads this
    {
      All(bios)
    }

    /** blk_rq_bio_prep */
    constructor (q: Limits, b: Bio, packet: bool, write: bool, disk: nat, pos: int)
      requires q.Ok() && BioOk(q, b)
      ensures Valid() && Pieces() == b.bvecs && this.q == q && this.packet == packet
      ensures this.write == write && this.disk == disk && this.pos == pos && !noMerge && !pinned && !special
    {
      var c := Refresh(q, b);
      this.q, this.packet, this.write, this.disk, this.pos := q, packet, write, disk, pos;
      bios, nrPhysSegments, noMerge, pinned, special := [c], c.physSegments, false, false, false;
      AllFirst([c]);
    }

    /** ll_new_hw_segment: room for the segments of one more bio. */
    method NewHwSegment(n: nat) returns (ok: bool)
      modifies this`nrPhysSegments, this`noMerge
      ensures ok <==> old(nrPhysSegments) + n <= q.maxHwSegments && old(nrPhysSegments) + n <= q.maxPhysSegments
      ensures nrPhysSegments == if ok then old(nrPhysSegments) + n else old(nrPhysSegments)
      ensures noMerge == (old(noMerge) || !ok)
    {
      if nrPhysSegments + n > q.maxHwSegments || nrPhysSegments + n > q.maxPhysSegments {
        noMerge := true;
        return false;
      }
      nrPhysSegments := nrPhysSegments + n;
      return true;
    }

    method TooLarge(b: Bio) returns (large: bool)
      ensures large <==> Sectors(All(bios)) + Sectors(b.bvecs) > if packet then q.maxHwSectors else q.maxSectors
    {
      var max := if packet then q.maxHwSectors else q.maxSectors;
      return Sectors(All(bios)) + Sectors(b.bvecs) > max;
    }

    /** ll_back_merge_fn, and the bio appended to the chain. */
    method BackMerge(b: Bio) returns (ok: bool)
      requires Valid() && BioOk(q, b)
      modifies this
      ensures Valid() && special == old(special) && pinned == old(pinned) && pos == old(pos)
      ensures Pieces() == if ok then old(Pieces()) + b.bvecs else old(Pieces())
      ensures ok <==>
        && Sectors(old(Pieces())) + Sectors(b.bvecs) <= (if packet then q.maxHwSectors else q.maxSectors)
        && old(nrPhysSegments) + SegmentsOf(q, b) <= q.maxHwSegments
        && old(nrPhysSegments) + SegmentsOf(q, b) <= q.maxPhysSegments
      ensures ok ==> nrPhysSegments == old(nrPhysSegments) + SegmentsOf(q, b)
      ensures !ok ==> noMerge && nrPhysSegments == old(nrPhysSegments)
    {
      hide Fits, SegmentsOf, Sectors, All;
      var large := TooLarge(b);
      if large {
        noMerge := true;
        return false;
      }
      var n := |bios|;
      var tail := Refresh(q, bios[n - 1]);
      ReplaceLast(this.q, bios, tail, nrPhysSegments);
      bios := bios[n - 1 := tail];
      var c := Refresh(q, b);
      ghost var segments := nrPhysSegments;
      ok := NewHwSegment(c.physSegments);
      if ok {
        AppendLast(this.q, bios, c, segments);
        bios := bios + [c];
      }
    }

    /** ll_front_merge_fn, and the bio put before the chain. */
    method FrontMerge(b: Bio) returns (ok: bool)
      requires Valid() && BioOk(q, b)
      modifies this
      ensures Valid() && special == old(special) && pinned == old(pinned)
      ensures pos == if ok then old(pos) - Sectors(b.bvecs) else old(pos)
      ensures Pieces() == if ok then b.bvecs + old(Pieces()) else old(Pieces())
      ensures ok <==>
        && Sectors(old(Pieces())) + Sectors(b.bvecs) <= (if packet then q.maxHwSectors else q.maxSectors)
        && old(nrPhysSegments) + SegmentsOf(q, b) <= q.maxHwSegments
        && old(nrPhysSegments) + SegmentsOf(q, b) <= q.maxPhysSegments
      ensures ok ==> nrPhysSegments == old(nrPhysSegments) + SegmentsOf(q, b)
      ensures !ok ==> noMerge && nrPhysSegments == old(nrPhysSegments)
    {
      hide Fits, SegmentsOf, Sectors;
      var large := TooLarge(b);
      if large {
        noMerge := true;
        return false;
      }
      var c := Refresh(q, b);
      var head := Refresh(q, bios[0]);
      ReplaceFirst(this.q, bios, head, nrPhysSegments);
      bios := bios[0 := head];
      ghost var segments := nrPhysSegments;
      ok := NewHwSegment(c.physSegments);
      if ok {
        var n := |bios|;
        FitsConcat(q, c.bvecs, c.physSegments, c.frontSize, c.backSize, All(bios), segments, head.frontSize, bios[n - 1].backSize);
        AllFirst([c] + bios);
        assert ([c] + bios)[1..] == bios;
        bios := [c] + bios;
        pos := pos - Sectors(b.bvecs);
      }
    }

    /** blk_recalc_rq_segments */
    method Recalc()
      requires q.Ok() && bios != [] && forall i :: 0 <= i < |bios| ==> bios[i].bvecs != []
      modifies this`bios, this`nrPhysSegments
      ensures Valid() && Pieces() == old(Pieces())
      ensures nrPhysSegments == Greedy(q, true, Pieces())
    {
      hide Fits, Greedy;
      var n, front, back := Recount(q, bios);
      AllFirst(bios);
      FitsLoosen(q, true, All(bios), n, front, back, front, back);
      SameChain(bios, Resize(bios, front, back));
      nrPhysSegments := n;
      bios := Resize(bios, front, back);
    }

    /** blk_rq_map_sg never needs more entries than the request counts segments. */
    method MapSg() returns (sgs: seq<Sg>)
      requires Valid()
      ensures |sgs| <= nrPhysSegments
      ensures SgBytes(sgs) == PieceBytes(Pieces())
    {
      hide Fits, Greedy;
      ghost var parts;
      sgs, parts := MapChain(q, bios);
      FitsBound(q, All(bios), nrPhysSegments, bios[0].frontSize, bios[|bios| - 1].backSize);
    }

    /** blk_phys_contig_segment, for the end of this request and the start of another. */
    method Contiguous(next: Request) returns (joins: bool)
      requires Valid() && next.Valid() && next.q == q
      ensures joins <==> Facing(q, bios, next.bios)
    {
      hide Fits, Joins, SameWindow, Adjacent;
      var e, s := bios[|bios| - 1], next.bios[0];
      var last, first := e.bvecs[|e.bvecs| - 1], s.bvecs[0];
      AllFirst(next.bios);
      JoinsMeans(q, last, first);
      if !q.cluster {
        return false;
      }
      if e.backSize + s.frontSize > q.maxSegmentSize {
        return false;
      }
      if !Adjacent(last, first) {
        return false;
      }
      return SameWindow(q, last, first);
    }

    /** ll_merge_requests_fn: the count of two neighbouring requests, one less where the facing
        segments join.  The cached sizes may change even when the requests are not merged. */
    method MergeCounts(next: Request) returns (ok: bool)
      requires Valid() && next.Valid() && next.q == q && next != this
      modifies this`bios, this`nrPhysSegments, next`bios
      ensures Pieces() == old(Pieces()) && next.Pieces() == old(next.Pieces()) && next.Valid()
      ensures bios != [] && forall i :: 0 <= i < |bios| ==> bios[i].bvecs != []
      ensures !ok ==> Valid() && nrPhysSegments == old(nrPhysSegments)
      ensures ok ==> Fits(q, false, Pieces() + next.Pieces(), nrPhysSegments, bios[0].frontSize, next.bios[|next.bios| - 1].backSize)
      ensures ok <==> Mergeable(q, old(bios), old(next.bios), old(special), old(next.special), old(nrPhysSegments), old(next.nrPhysSegments))
      ensures ok ==> nrPhysSegments == MergedCount(q, old(bios), old(next.bios), old(nrPhysSegments), old(next.nrPhysSegments))
    {
      hide Fits, Joins, Greedy, Facing, Sectors;
      var segSize := bios[|bios| - 1].backSize + next.bios[0].frontSize;
      if special || next.special {
        return false;
      }
      if Sectors(All(bios)) + Sectors(All(next.bios)) > q.maxSectors {
        return false;
      }
      var total := nrPhysSegments + next.nrPhysSegments;
      var joins := Contiguous(next);
      ghost var b1, b2 := bios, next.bios;
      if joins {
        if nrPhysSegments == 1 {
          bios := bios[0 := bios[0].(frontSize := segSize)];
        }
        if next.nrPhysSegments == 1 {
          next.bios := next.bios[|next.bios| - 1 := next.bios[|next.bios| - 1].(backSize := segSize)];
        }
        total := total - 1;
        JoinedChains(q, b1, nrPhysSegments, b2, next.nrPhysSegments, segSize);
      } else {
        FitsConcat(q, All(b1), nrPhysSegments, b1[0].frontSize, b1[|b1| - 1].backSize,
                   All(b2), next.nrPhysSegments, b2[0].frontSize, b2[|b2| - 1].backSize);
      }
      if total > q.maxPhysSegments {
        return false;
      }
      if total > q.maxHwSegments {
        return false;
      }
      nrPhysSegments := total;
      return true;
    }

    /** rq_mergeable */
    predicate MayMerge()
      reads this
    {
      !noMerge && !pinned && !packet
    }

    /** Does `next` start where this request ends, on the same disk and in the same direction? */
    predicate Continues(next: Request)
      reads this, next
    {
      pos + Sectors(All(bios)) == next.pos && write == next.write && disk == next.disk
    }

    /** attempt_merge: the chain of the next request is appended to this one's. */
    method Merge(next: Request) returns (ok: bool)
      requires Valid() && next.Valid() && next.q == q && next != this
      modifies this, next
      ensures Valid()
      ensures Pieces() == if ok then old(Pieces()) + old(next.Pieces()) else old(Pieces())
      ensures !ok ==> next.Valid() && next.Pieces() == old(next.Pieces())
      ensures ok <==>
        && old(MayMerge()) && old(next.MayMerge()) && old(Continues(next))
        && Mergeable(q, old(bios), old(next.bios), old(special), old(next.special), old(nrPhysSegments), old(next.nrPhysSegments))
      ensures ok ==> nrPhysSegments == MergedCount(q, old(bios), old(next.bios), old(nrPhysSegments), old(next.nrPhysSegments))
      ensures special == old(special) && pinned == old(pinned) && noMerge == old(noMerge) && pos == old(pos)
    {
      hide Fits, Mergeable, MergedCount, Sectors;
      if !MayMerge() || !next.MayMerge() {
        return false;
      }
      if pos + Sectors(All(bios)) != next.pos {
        return false;
      }
      if write != next.write || disk != next.disk || next.special {
        NotMergeable(q, bios, next.bios, special, next.special, nrPhysSegments, next.nrPhysSegments);
        return false;
      }
      ok := MergeCounts(next);
      if ok {
        AllConcat(bios, next.bios);
        bios := bios + next.bios;
        next.bios := [];
      }
    }
  }

  /** Do the last segment of one chain and the first of another make one segment, going by the
      cached sizes? */
  ghost predicate Facing(q: Limits, b1: seq<Bio>, b2: seq<Bio>)
    requires q.Ok() && b1 != [] && b2 != []
  {
    && All(b1) != [] && All(b2) != []
    && b1[|b1| - 1].backSize + b2[0].frontSize <= q.maxSegmentSize
    && Joins(q, false, All(b1)[|All(b1)| - 1], All(b2)[0])
  }

  ghost function MergedCount(q: Limits, b1: seq<Bio>, b2: seq<Bio>, n1: nat, n2: nat): int
    requires q.Ok() && b1 != [] && b2 != []
  {
    if Facing(q, b1, b2) then n1 + n2 - 1 else n1 + n2
  }

  ghost predicate Mergeable(q: Limits, b1: seq<Bio>, b2: seq<Bio>, special1: bool, special2: bool, n1: nat, n2: nat)
    requires q.Ok() && b1 != [] && b2 != []
  {
    && !special1 && !special2
    && Sectors(All(b1)) + Sectors(All(b2)) <= q.maxSectors
    && MergedCount(q, b1, b2, n1, n2) <= q.maxPhysSegments
    && MergedCount(q, b1, b2, n1, n2) <= q.maxHwSegments
  }

  lemma NotMergeable(q: Limits, b1: seq<Bio>, b2: seq<Bio>, special1: bool, special2: bool, n1: nat, n2: nat)
    requires q.Ok() && b1 != [] && b2 != []
    ensures special2 ==> !Mergeable(q, b1, b2, special1, special2, n1, n2)
  {}

  /** Joining the facing segments of two chains, with the cached sizes brought up to date. */
  lemma JoinedChains(q: Limits, b1: seq<Bio>, n1: nat, b2: seq<Bio>, n2: nat, size: nat)
    requires q.Ok() && b1 != [] && b2 != [] && Facing(q, b1, b2)
    requires Fits(q, false, All(b1), n1, b1[0].frontSize, b1[|b1| - 1].backSize)
    requires Fits(q, false, All(b2), n2, b2[0].frontSize, b2[|b2| - 1].backSize)
    requires size == b1[|b1| - 1].backSize + b2[0].frontSize
    ensures
      var r1 := if n1 == 1 then b1[0 := b1[0].(frontSize := size)] else b1;
      var r2 := if n2 == 1 then b2[|b2| - 1 := b2[|b2| - 1].(backSize := size)] else b2;
      && All(r1) == All(b1) && All(r2) == All(b2)
      && Fits(q, false, All(r1), n1, r1[0].frontSize, r1[|r1| - 1].backSize)
      && Fits(q, false, All(r2), n2, r2[0].frontSize, r2[|r2| - 1].backSize)
      && n1 > 0 && n2 > 0
      && Fits(q, false, All(r1) + All(r2), n1 + n2 - 1, r1[0].frontSize, r2[|r2| - 1].backSize)
  {
    hide Fits, Joins;
    var f1, l1 := b1[0].frontSize, b1[|b1| - 1].backSize;
    var f2, l2 := b2[0].frontSize, b2[|b2| - 1].backSize;
    FitsJoin(q, All(b1), n1, f1, l1, All(b2), n2, f2, l2);
    FitsSome(q, All(b1), n1, f1, l1);
    FitsSome(q, All(b2), n2, f2, l2);
    if n1 == 1 {
      FitsLoosen(q, false, All(b1), 1, l1, l1, size, l1);
      SameChain(b1, b1[0 := b1[0].(frontSize := size)]);
    }
    if n2 == 1 {
      FitsLoosen(q, false, All(b2), 1, f2, f2, f2, size);
      SameChain(b2, b2[|b2| - 1 := b2[|b2| - 1].(backSize := size)]);
    }
  }

  lemma FitsSome(q: Limits, xs: seq<BVec>, n: nat, front: nat, back: nat)
    requires q.Ok() && Fits(q, false, xs, n, front, back)
    ensures n > 0
    ensures n == 1 ==> Fits(q, false, xs, 1, back, back) && Fits(q, false, xs, 1, front, front)
  {}

  lemma {:induction false} SameChain(b: seq<Bio>, r: seq<Bio>)
    requires |b| == |r| && forall i :: 0 <= i < |b| ==> b[i].bvecs == r[i].bvecs
    ensures All(b) == All(r)
  {
    if b != [] {
      SameChain(b[..|b| - 1], r[..|r| - 1]);
    }
  }

  /** The cached sizes at both ends of a chain. */
  function Resize(bios: seq<Bio>, front: nat, back: nat): seq<Bio>
    requires bios != []
  {
    var r := bios[0 := bios[0].(frontSize := front)];
    r[|r| - 1 := r[|r| - 1].(backSize := back)]
  }

  lemma ReplaceFirst(q: Limits, bios: seq<Bio>, head: Bio, n: nat)
    requires q.Ok() && bios != [] && head.bvecs == bios[0].bvecs
    requires bios[0].frontSize <= head.frontSize && bios[0].backSize <= head.backSize
    requires Fits(q, false, All(bios), n, bios[0].frontSize, bios[|bios| - 1].backSize)
    ensures var r := bios[0 := head];
      All(r) == All(bios) && Fits(q, false, All(r), n, head.frontSize, r[|r| - 1].backSize)
  {
    hide Fits;
    var r := bios[0 := head];
    AllFirst(bios);
    AllFirst(r);
    assert r[1..] == bios[1..];
    FitsLoosen(q, false, All(bios), n, bios[0].frontSize, bios[|bios| - 1].backSize, head.frontSize, r[|r| - 1].backSize);
  }

  lemma AllLast(bios: seq<Bio>, c: Bio)
    ensures All(bios + [c]) == All(bios) + c.bvecs
  {
    var r := bios + [c];
    assert r[..|r| - 1] == bios && r[|r| - 1] == c;
  }

  lemma AppendLast(q: Limits, bios: seq<Bio>, c: Bio, n: nat)
    requires q.Ok() && bios != [] && c.bvecs != [] && Fits(q, false, All(bios), n, bios[0].frontSize, bios[|bios| - 1].backSize)
    requires Fits(q, false, c.bvecs, c.physSegments, c.frontSize, c.backSize)
    ensures var r := bios + [c];
      All(r) == All(bios) + c.bvecs && Fits(q, false, All(r), n + c.physSegments, r[0].frontSize, c.backSize)
  {
    hide Fits, All;
    AllLast(bios, c);
    FitsConcat(q, All(bios), n, bios[0].frontSize, bios[|bios| - 1].backSize, c.bvecs, c.physSegments, c.frontSize, c.backSize);
  }

  lemma ReplaceLast(q: Limits, bios: seq<Bio>, tail: Bio, n: nat)
    requires q.Ok() && bios != [] && tail.bvecs == bios[|bios| - 1].bvecs
    requires bios[|bios| - 1].frontSize <= tail.frontSize && bios[|bios| - 1].backSize <= tail.backSize
    requires Fits(q, false, All(bios), n, bios[0].frontSize, bios[|bios| - 1].backSize)
    ensures var r := bios[|bios| - 1 := tail];
      All(r) == All(bios) && Fits(q, false, All(r), n, r[0].frontSize, tail.backSize)
  {
    hide Fits;
    var r := bios[|bios| - 1 := tail];
    assert r[..|r| - 1] == bios[..|bios| - 1];
    FitsLoosen(q, false, All(bios), n, bios[0].frontSize, bios[|bios| - 1].backSize, r[0].frontSize, tail.backSize);
  }
}

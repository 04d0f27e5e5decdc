/** Partial completion of a request: after `n` bytes the request is what it was, with its first
    `n` bytes dropped. */
module BlkUpdate {
  import opened Segments
  import opened BlkMerge

  /** A bio under way: its vector, the index of the first piece not done, and the bytes left. */
  datatype Chunk = Chunk(id: nat, vecs: seq<BVec>, idx: nat, size: nat, sector: nat, uptodate: bool, frontSize: nat, backSize: nat)
  {
    predicate Ok() { idx <= |vecs| && size == Sum(vecs[idx..]) && size > 0 }

    /** The pieces left. */
    function Rest(): seq<BVec>
      requires idx <= |vecs|
    {
      vecs[idx..]
    }
  }

  ghost predicate AllOk(bios: seq<Chunk>) {
    forall i :: 0 <= i < |bios| ==> bios[i].Ok()
  }

  function Left(bios: seq<Chunk>): seq<BVec>
    requires forall i :: 0 <= i < |bios| ==> bios[i].idx <= |bios[i].vecs|
  {
    if bios == [] then [] else bios[0].Rest() + Left(bios[1..])
  }

  function Size(bios: seq<Chunk>): nat {
    if bios == [] then 0 else bios[0].size + Size(bios[1..])
  }

  lemma {:induction false} BytesLength(xs: seq<BVec>)
    ensures |PieceBytes(xs)| == Sum(xs)
  {
    if xs != [] {
      BytesLength(xs[..|xs| - 1]);
    }
  }

  lemma {:induction false} LeftSum(bios: seq<Chunk>)
    requires AllOk(bios)
    ensures Sum(Left(bios)) == Size(bios)
  {
    if bios != [] {
      LeftSum(bios[1..]);
      SumConcat(bios[0].Rest(), Left(bios[1..]));
    }
  }

  lemma {:induction false} LeftConcat(a: seq<Chunk>, b: seq<Chunk>)
    requires AllOk(a) && AllOk(b)
    ensures Left(a + b) == Left(a) + Left(b) && Size(a + b) == Size(a) + Size(b)
  {
    if a == [] {
      assert a + b == b;
    } else {
      LeftConcat(a[1..], b);
      assert (a + b)[1..] == a[1..] + b;
    }
  }

  // The bio that is only partly done

  /** `next` pieces done, and `cut` bytes of the one after; `bytes` in all. */
  function Advance(b: Chunk, next: nat, cut: nat, bytes: nat): Chunk
    requires b.idx + next < |b.vecs| && cut <= b.vecs[b.idx + next].len && bytes <= b.size
  {
    var i := b.idx + next;
    var v := b.vecs[i];
    b.(idx := i, size := b.size - bytes, sector := b.sector + bytes / 512,
       vecs := b.vecs[i := v.(addr := v.addr + cut, len := v.len - cut)])
  }

  lemma CutBytes(v: BVec, cut: nat)
    requires cut <= v.len
    ensures Run(v.addr + cut, v.len - cut) == Run(v.addr, v.len)[cut..]
  {}

  lemma OneBytes(v: BVec)
    ensures PieceBytes([v]) == Run(v.addr, v.len) && Sum([v]) == v.len
  {
    assert [v][..0] == [];
  }

  lemma SplitAt(p: seq<BVec>, v: BVec, s: seq<BVec>)
    ensures PieceBytes(p + ([v] + s)) == PieceBytes(p) + (Run(v.addr, v.len) + PieceBytes(s))
    ensures Sum(p + ([v] + s)) == Sum(p) + v.len + Sum(s)
  {
    hide PieceBytes, Sum, Run;
    BytesConcat(p, [v] + s);
    BytesConcat([v], s);
    SumConcat(p, [v] + s);
    SumConcat([v], s);
    OneBytes(v);
  }

  lemma DropInside(a: seq<nat>, r: seq<nat>, s: seq<nat>, cut: nat)
    requires cut <= |r|
    ensures (a + (r + s))[|a| + cut..] == r[cut..] + s
  {}

  lemma DropFirst(xs: seq<BVec>, k: nat, cut: nat)
    requires k < |xs| && cut <= xs[k].len
    ensures var ys := [xs[k].(addr := xs[k].addr + cut, len := xs[k].len - cut)] + xs[k + 1..];
      && Sum(xs[..k]) + cut <= |PieceBytes(xs)| == Sum(xs)
      && PieceBytes(ys) == PieceBytes(xs)[Sum(xs[..k]) + cut..]
      && Sum(ys) == Sum(xs) - Sum(xs[..k]) - cut
  {
    hide PieceBytes, Sum;
    var v := xs[k].(addr := xs[k].addr + cut, len := xs[k].len - cut);
    assert xs == xs[..k] + ([xs[k]] + xs[k + 1..]);
    SplitAt(xs[..k], xs[k], xs[k + 1..]);
    SplitAt([], v, xs[k + 1..]);
    assert [] + ([v] + xs[k + 1..]) == [v] + xs[k + 1..];
    NoBytes();
    CutBytes(xs[k], cut);
    BytesLength(xs[..k]);
    BytesLength(xs);
    DropInside(PieceBytes(xs[..k]), Run(xs[k].addr, xs[k].len), PieceBytes(xs[k + 1..]), cut);
  }

  lemma NoBytes()
    ensures PieceBytes([]) == [] && Sum([]) == 0
  {}

  lemma Advanced(b: Chunk, next: nat, cut: nat)
    requires b.Ok() && b.idx + next < |b.vecs| && cut <= b.vecs[b.idx + next].len
    requires Sum(b.Rest()[..next]) + cut < b.size
    ensures var n := Sum(b.Rest()[..next]) + cut; var c := Advance(b, next, cut, n);
      c.Ok() && |PieceBytes(b.Rest())| == b.size && PieceBytes(c.Rest()) == PieceBytes(b.Rest())[n..]
  {
    hide PieceBytes, Sum;
    var xs := b.Rest();
    DropFirst(xs, next, cut);
    var c := Advance(b, next, cut, Sum(xs[..next]) + cut);
    var v := xs[next];
    assert c.Rest() == [v.(addr := v.addr + cut, len := v.len - cut)] + xs[next + 1..];
    BytesLength(xs);
  }

  // The whole chain

  /** The chain after `k` whole bios and part of the next. */
  lemma ChainDrops(bios: seq<Chunk>, k: nat, c: Chunk, n: nat)
    requires AllOk(bios) && k < |bios| && c.Ok() && n <= bios[k].size
    requires |PieceBytes(bios[k].Rest())| == bios[k].size
    requires PieceBytes(c.Rest()) == PieceBytes(bios[k].Rest())[n..] && c.size == bios[k].size - n
    ensures AllOk(bios[..k]) && AllOk([c] + bios[k + 1..])
    ensures |PieceBytes(Left(bios))| == Size(bios) && Size(bios[..k]) + n <= Size(bios)
    ensures PieceBytes(Left([c] + bios[k + 1..])) == PieceBytes(Left(bios))[Size(bios[..k]) + n..]
    ensures Size([c] + bios[k + 1..]) == Size(bios) - Size(bios[..k]) - n
  {
    hide PieceBytes, Sum, Left, Size;
    var pre, b, post := bios[..k], bios[k], bios[k + 1..];
    assert bios == pre + ([b] + post);
    LeftConcat(pre, [b] + post);
    LeftConcat([b], post);
    LeftConcat([c], post);
    LeftOne(b);
    LeftOne(c);
    BytesConcat(Left(pre), Left([b] + post));
    BytesConcat(b.Rest(), Left(post));
    BytesConcat(c.Rest(), Left(post));
    LeftSum(pre);
    LeftSum(bios);
    BytesLength(Left(pre));
    BytesLength(Left(bios));
    DropInside(PieceBytes(Left(pre)), PieceBytes(b.Rest()), PieceBytes(Left(post)), n);
  }

  lemma LeftOne(b: Chunk)
    requires b.Ok()
    ensures Left([b]) == b.Rest() && Size([b]) == b.size
  {
    assert [b][1..] == [];
    assert Left([b][1..]) == [];
    assert Size([b][1..]) == 0;
  }

  // blk_update_request

  /** A call of bio_endio. */
  datatype Ended = Ended(id: nat, failed: bool)

  /** The bios that the first `n` bytes complete, in order. */
  function Ends(bios: seq<Chunk>, n: int, failed: bool): seq<Ended> {
    if bios == [] || n < bios[0].size then []
    else [Ended(bios[0].id, failed || !bios[0].uptodate)] + Ends(bios[1..], n - bios[0].size, failed)
  }

  function Ids(bios: seq<Chunk>): seq<nat> { seq(|bios|, i requires 0 <= i < |bios| => bios[i].id) }

  function EndIds(es: seq<Ended>): seq<nat> { seq(|es|, i requires 0 <= i < |es| => es[i].id) }

  /** The bios ended are exactly those that fit into the first `n` bytes. */
  lemma {:induction false} EndsAreFirst(bios: seq<Chunk>, k: nat, n: nat, failed: bool)
    requires AllOk(bios) && k <= |bios| && Size(bios[..k]) <= n
    requires k < |bios| ==> n < Size(bios[..k]) + bios[k].size
    ensures EndIds(Ends(bios, n, failed)) == Ids(bios[..k])
  {
    hide EndIds, Ids;
    NoIds();
    if k > 0 {
      var first, rest := bios[..k], bios[1..];
      assert first[1..] == rest[..k - 1];
      EndsAreFirst(rest, k - 1, n - bios[0].size, failed);
      EndIdsTail(Ends(bios, n, failed));
      IdsTail(first);
    }
  }

  lemma NoIds()
    ensures EndIds([]) == Ids([]) == []
  {}

  lemma EndIdsTail(es: seq<Ended>)
    ensures es != [] ==> EndIds(es) == [es[0].id] + EndIds(es[1..])
  {}

  lemma IdsTail(bios: seq<Chunk>)
    ensures bios != [] ==> Ids(bios) == [bios[0].id] + Ids(bios[1..])
  {}

  lemma IdsSplit(bios: seq<Chunk>, k: nat, r: seq<Chunk>)
    requires k <= |bios| && |r| == |bios| - k && forall i :: 0 <= i < |r| ==> r[i].id == bios[k + i].id
    ensures Ids(bios[..k]) + Ids(r) == Ids(bios)
  {}

  /** Where the loop stands: `k` bios are done and `next` pieces of the one after, `total` bytes
      in all, with `left` to go. */
  ghost predicate At(bios: seq<Chunk>, n: nat, k: nat, next: nat, bioBytes: nat, total: nat, left: nat) {
    && AllOk(bios) && k <= |bios|
    && total + left == n && total == Size(bios[..k]) + bioBytes
    && (k == |bios| ==> next == 0 && bioBytes == 0)
    && (k < |bios| ==>
        && bios[k].idx + next <= |bios[k].vecs| && bioBytes == Sum(bios[k].Rest()[..next])
        && (next > 0 ==> bioBytes + left < bios[k].size))
  }

  lemma SizeSnoc(bios: seq<Chunk>, k: nat)
    requires k < |bios| && AllOk(bios)
    ensures Size(bios[..k + 1]) == Size(bios[..k]) + bios[k].size
    ensures bios[k..][1..] == bios[k + 1..]
  {
    assert bios[..k + 1] == bios[..k] + [bios[k]];
    LeftConcat(bios[..k], [bios[k]]);
    LeftOne(bios[k]);
  }

  lemma NextBio(bios: seq<Chunk>, n: nat, k: nat, next: nat, bioBytes: nat, total: nat, left: nat)
    requires At(bios, n, k, next, bioBytes, total, left) && k < |bios| && left >= bios[k].size
    ensures next == 0 && bioBytes == 0
    ensures At(bios, n, k + 1, 0, 0, total + bios[k].size, left - bios[k].size)
  {
    hide Size;
    SizeSnoc(bios, k);
    assert bios[k].Rest()[..0] == [];
    NoBytes();
    if k + 1 < |bios| {
      assert bios[k + 1].Rest()[..0] == [];
    }
  }

  lemma NextPiece(bios: seq<Chunk>, n: nat, k: nat, next: nat, bioBytes: nat, total: nat, left: nat)
    requires At(bios, n, k, next, bioBytes, total, left) && k < |bios| && left < bios[k].size
    ensures bios[k].idx + next < |bios[k].vecs|
    ensures bios[k].vecs[bios[k].idx + next].len <= bios[k].size
    ensures var len := bios[k].vecs[bios[k].idx + next].len;
      len <= left ==> At(bios, n, k, next + 1, bioBytes + len, total + len, left - len)
  {
    hide Size, Sum;
    NoBytes();
    var b := bios[k];
    var xs := b.Rest();
    assert xs[..|xs|] == xs;
    if b.idx + next < |b.vecs| {
      assert xs[next] == b.vecs[b.idx + next];
      assert xs[..next + 1] == xs[..next] + [xs[next]];
      SumConcat(xs[..next], [xs[next]]);
      OneBytes(xs[next]);
      assert xs == xs[..next + 1] + xs[next + 1..];
      SumConcat(xs[..next + 1], xs[next + 1..]);
      assert next == 0 ==> xs[..next] == [];
    }
  }

  lemma {:induction false} EndsAfter(bios: seq<Chunk>, k: nat, n: nat, failed: bool)
    requires AllOk(bios) && k < |bios| && Size(bios[..k + 1]) <= n
    ensures Ends(bios[k..], n - Size(bios[..k]), failed)
      == [Ended(bios[k].id, failed || !bios[k].uptodate)] + Ends(bios[k + 1..], n - Size(bios[..k + 1]), failed)
  {
    SizeSnoc(bios, k);
  }

  lemma EndsOn(bios: seq<Chunk>, k: nat, n: nat, failed: bool, ended: seq<Ended>, total: nat)
    requires AllOk(bios) && k < |bios| && total == Size(bios[..k]) + bios[k].size <= n
    ensures bios[k..][1..] == bios[k + 1..] && bios[k..][0] == bios[k]
    ensures ended + [Ended(bios[k].id, failed || !bios[k].uptodate)] + Ends(bios[k + 1..], n - Size(bios[..k + 1]), failed)
      == ended + Ends(bios[k..], n - Size(bios[..k]), failed)
  {
    hide Ends, Size;
    SizeSnoc(bios, k);
    EndsAfter(bios, k, n, failed);
  }

  lemma Begun(bios: seq<Chunk>, n: nat)
    requires AllOk(bios)
    ensures At(bios, n, 0, 0, 0, 0, n)
    ensures bios[0..] == bios && Size(bios[..0]) == 0
  {
    if bios != [] {
      assert bios[0].Rest()[..0] == [];
    }
  }

  lemma AtOk(bios: seq<Chunk>, n: nat, k: nat, next: nat, bioBytes: nat, total: nat, left: nat)
    requires At(bios, n, k, next, bioBytes, total, left)
    ensures AllOk(bios) && total + left == n && total == Size(bios[..k]) + bioBytes
    ensures k < |bios| ==> bios[k].idx + next <= |bios[k].vecs| && bios[k].size > 0
    ensures k == |bios| ==> bioBytes == 0 && bios[..k] == bios
  {}

  /** Where the loop stops with part of a bio to go. */
  lemma Stopped(bios: seq<Chunk>, n: nat, k: nat, next: nat, bioBytes: nat, total: nat, left: nat, failed: bool)
    requires At(bios, n, k, next, bioBytes, total, left) && k < |bios| && left < bios[k].size
    ensures bios[k].idx + next < |bios[k].vecs|
    ensures bioBytes == Sum(bios[k].Rest()[..next]) && bioBytes + left < bios[k].size
    ensures Ends(bios[k..], n - Size(bios[..k]), failed) == []
  {
    hide Size, Sum;
    NoBytes();
    NextPiece(bios, n, k, next, bioBytes, total, left);
    assert next == 0 ==> bios[k].Rest()[..next] == [];
  }

  lemma NoneEnds(n: int, failed: bool)
    ensures Ends([], n, failed) == []
  {}

  /** What is left of each bio, as a chain to be counted. */
  function Chain(bios: seq<Chunk>): seq<Bio>
    requires forall i :: 0 <= i < |bios| ==> bios[i].idx <= |bios[i].vecs|
  {
    seq(|bios|, i requires 0 <= i < |bios| => Bio(bios[i].Rest(), 0, false, bios[i].frontSize, bios[i].backSize))
  }

  class Completion {
    const q: Limits
    const fs: bool
    var bios: seq<Chunk>
    var dataLen: nat
    var sector: nat
    var nrPhysSegments: nat
    // the calls of bio_endio so far
    var ended: seq<Ended>

    ghost predicate Valid()
      reads this
    {
      q.Ok() && AllOk(bios) && dataLen == Size(bios)
    }

    /** The bytes of memory still to be transferred, in order. */
    ghost function Bytes(): seq<nat>
      requires Valid()
      reads this
    {
      PieceBytes(Left(bios))
    }

    /** req_bio_endio for the whole of the first bio. */
    method EndFirst(failed: bool)
      requires bios != []
      modifies this`bios, this`ended
      ensures bios == old(bios[1..])
      ensures ended == old(ended) + [Ended(old(bios[0].id), failed || !old(bios[0].uptodate))]
    {
      ended := ended + [Ended(bios[0].id, failed || !bios[0].uptodate)];
      bios := bios[1..];
    }

    /** The loop of blk_update_request: whole bios are ended and leave the chain. */
    method Consume(failed: bool, n: nat) returns (next: nat, cut: nat, bioBytes: nat, total: nat, ghost k: nat)
      requires Valid()
      modifies this`bios, this`ended
      ensures k <= |old(bios)| && bios == old(bios)[k..]
      ensures ended == old(ended) + Ends(old(bios), n, failed)
      ensures bios == [] ==> Size(old(bios)) <= n
      ensures bios != [] ==>
        && total == n && n == Size(old(bios)[..k]) + bioBytes && bioBytes < bios[0].size
        && bios[0].idx + next < |bios[0].vecs| && cut <= bios[0].vecs[bios[0].idx + next].len
        && bioBytes == Sum(bios[0].Rest()[..next]) + cut
    {
      hide Size, Sum, At, Ends, AllOk;
      ghost var all := bios;
      var left: nat := n;
      next, cut, bioBytes, total, k := 0, 0, 0, 0, 0;
      Begun(all, n);
      while bios != []
        invariant k <= |all| && bios == all[k..] && At(all, n, k, next, bioBytes, total, left) && cut == 0
        invariant ended + Ends(all[k..], n - Size(all[..k]), failed) == old(ended) + Ends(all, n, failed)
        decreases |bios|, if bios == [] then 0 else |bios[0].vecs| - bios[0].idx - next
      {
        var b := bios[0];
        AtOk(all, n, k, next, bioBytes, total, left);
        if left >= b.size {
          NextBio(all, n, k, next, bioBytes, total, left);
          EndsOn(all, k, n, failed, ended, total + b.size);
          EndFirst(failed);
          total, left, next, bioBytes, k := total + b.size, left - b.size, 0, 0, k + 1;
        } else {
          NextPiece(all, n, k, next, bioBytes, total, left);
          var len := b.vecs[b.idx + next].len;
          if len > left {
            Stopped(all, n, k, next, bioBytes, total, left, failed);
            bioBytes, total, cut := bioBytes + left, total + left, left;
            break;
          }
          next, bioBytes, total, left := next + 1, bioBytes + len, total + len, left - len;
        }
        if bios != [] && left == 0 {
          AtOk(all, n, k, next, bioBytes, total, left);
          Stopped(all, n, k, next, bioBytes, total, left, failed);
          break;
        }
      }
      if bios == [] {
        AtOk(all, n, k, next, bioBytes, total, left);
        NoneEnds(n - Size(all[..k]), failed);
      }
    }

    /** blk_recalc_rq_segments on what is left. */
    method Recalc()
      requires q.Ok() && AllOk(bios) && bios != []
      modifies this`bios, this`nrPhysSegments
      ensures AllOk(bios) && Left(bios) == old(Left(bios)) && Size(bios) == old(Size(bios))
      ensures Ids(bios) == Ids(old(bios))
      ensures nrPhysSegments == Greedy(q, true, Left(bios))
    {
      hide Greedy, Fits, Sum, Left, Size;
      ChainPieces(bios, Chain(bios));
      var n, front, back := Recount(q, Chain(bios));
      nrPhysSegments := n;
      SizesOnly(bios, 0, bios[0].(frontSize := front));
      bios := bios[0 := bios[0].(frontSize := front)];
      var last := |bios| - 1;
      SizesOnly(bios, last, bios[last].(backSize := back));
      bios := bios[last := bios[last].(backSize := back)];
    }

    /** The end of blk_update_request when bytes are left. */
    method Remain(failed: bool, next: nat, cut: nat, bioBytes: nat, total: nat)
      requires q.Ok() && bios != [] && total <= dataLen
      requires bios[0].idx + next < |bios[0].vecs| && cut <= bios[0].vecs[bios[0].idx + next].len && bioBytes <= bios[0].size
      requires var r := [Remainder(bios[0], next, cut, bioBytes, failed)] + bios[1..];
        AllOk(r) && Size(r) == dataLen - total
      modifies this`bios, this`dataLen, this`sector, this`nrPhysSegments
      ensures Valid() && dataLen == old(dataLen) - total
      ensures Left(bios) == Left([Remainder(old(bios[0]), next, cut, bioBytes, failed)] + old(bios[1..]))
      ensures Ids(bios) == Ids(old(bios))
      ensures sector == if fs then old(sector) + total / 512 else old(sector)
      ensures nrPhysSegments == Greedy(q, true, Left(bios))
    {
      hide Greedy, Sum, Left, Size;
      assert bios == [bios[0]] + bios[1..];
      if bioBytes != 0 {
        bios := [Remainder(bios[0], next, cut, bioBytes, failed)] + bios[1..];
      }
      dataLen := dataLen - total;
      if fs {
        sector := sector + total / 512;
      }
      // the request is never botched
      CurrentFits(bios);
      assert dataLen >= bios[0].Rest()[0].len;
      Recalc();
    }

    /** blk_update_request.  The answer is whether bytes are left; the remaining bytes are the old
        ones without the first `n`. */
    method Update(failed: bool, n: nat) returns (more: bool)
      requires Valid()
      modifies this
      ensures Valid()
      ensures more <==> n < old(dataLen)
      ensures Bytes() == Drop(old(Bytes()), n)
      ensures dataLen == if more then old(dataLen) - n else 0
      ensures sector == if more && fs then old(sector) + n / 512 else old(sector)
      ensures ended == old(ended) + Ends(old(bios), n, failed)
      ensures EndIds(Ends(old(bios), n, failed)) + Ids(bios) == Ids(old(bios))
      ensures more ==> nrPhysSegments == Greedy(q, true, Left(bios))
    {
      hide Greedy, Sum, Left, Size, PieceBytes, Ends;
      ghost var all := bios;
      SizeLeft(all);
      if bios == [] {
        NoneEnds(n, failed);
        return false;
      }
      var next, cut, bioBytes, total, k := Consume(failed, n);
      assert bios == [] ==> all[..k] == all;
      EndsAreFirst(all, k, n, failed);
      if bios == [] {
        SizeLeft(bios);
        IdsSplit(all, k, bios);
        dataLen := 0;
        return false;
      }
      Dropped(all, k, next, cut, bioBytes, failed);
      assert all[k..][1..] == all[k + 1..];
      IdsSplit(all, k, bios);
      Remain(failed, next, cut, bioBytes, total);
      more := true;
    }
  }

  function Drop<T>(s: seq<T>, n: nat): seq<T> {
    if n <= |s| then s[n..] else []
  }

  /** The first bio left: untouched, or advanced and marked if the bytes done failed. */
  function Remainder(b: Chunk, next: nat, cut: nat, bytes: nat, failed: bool): Chunk
    requires b.idx + next < |b.vecs| && cut <= b.vecs[b.idx + next].len && bytes <= b.size
  {
    if bytes == 0 then b else Advance(b, next, cut, bytes).(uptodate := b.uptodate && !failed)
  }

  lemma {:induction false} ChainPieces(bios: seq<Chunk>, chain: seq<Bio>)
    requires AllOk(bios) && |chain| == |bios| && forall i :: 0 <= i < |bios| ==> chain[i].bvecs == bios[i].Rest()
    ensures All(chain) == Left(bios)
  {
    if bios != [] {
      AllFirst(chain);
      ChainPieces(bios[1..], chain[1..]);
    }
  }

  lemma {:induction false} SizesOnly(bios: seq<Chunk>, i: nat, b: Chunk)
    requires AllOk(bios) && i < |bios| && b.vecs == bios[i].vecs && b.idx == bios[i].idx && b.size == bios[i].size
    ensures AllOk(bios[i := b]) && Left(bios[i := b]) == Left(bios) && Size(bios[i := b]) == Size(bios)
  {
    if i > 0 {
      SizesOnly(bios[1..], i - 1, b);
      assert bios[i := b][1..] == bios[1..][i - 1 := b];
    } else {
      assert bios[i := b][1..] == bios[1..];
    }
  }

  lemma SizeLeft(bios: seq<Chunk>)
    requires AllOk(bios)
    ensures |PieceBytes(Left(bios))| == Size(bios)
    ensures bios == [] ==> PieceBytes(Left(bios)) == [] && Size(bios) == 0
    ensures bios != [] ==> Size(bios) > 0
  {
    LeftSum(bios);
    BytesLength(Left(bios));
  }

  lemma CurrentFits(bios: seq<Chunk>)
    requires AllOk(bios) && bios != []
    ensures bios[0].idx < |bios[0].vecs| && bios[0].Rest()[0].len <= Size(bios)
  {
    var xs := bios[0].Rest();
    NoBytes();
    SumFirst(xs);
  }

  lemma Dropped(all: seq<Chunk>, k: nat, next: nat, cut: nat, bytes: nat, failed: bool)
    requires AllOk(all) && k < |all| && all[k].idx + next < |all[k].vecs| && cut <= all[k].vecs[all[k].idx + next].len
    requires bytes == Sum(all[k].Rest()[..next]) + cut < all[k].size
    ensures var r := [Remainder(all[k], next, cut, bytes, failed)] + all[k + 1..];
      var n := Size(all[..k]) + bytes;
      && AllOk(r) && n < Size(all) == |PieceBytes(Left(all))|
      && PieceBytes(Left(r)) == PieceBytes(Left(all))[n..] && Size(r) == Size(all) - n
  {
    hide Sum, Left, Size, PieceBytes;
    var b := Remainder(all[k], next, cut, bytes, failed);
    var r := [b] + all[k + 1..];
    Advanced(all[k], next, cut);
    BytesLength(all[k].Rest());
    ChainDrops(all, k, b, bytes);
    SizeLeft(r);
  }
}

/** Physical segments of a request: which ways of cutting its memory pieces into segments the
    hardware accepts, and why the greedy one has the fewest. */
module Segments {

  /** One piece of memory: its page frame, physical address and length. */
  datatype BVec = BVec(pfn: nat, addr: nat, len: nat)

  /** What the queue allows.  `window` is the segment boundary mask plus one. */
  datatype Limits = Limits(
    cluster: bool, maxSegmentSize: nat, window: nat, bouncePfn: nat,
    maxPhysSegments: nat, maxHwSegments: nat, maxSectors: nat, maxHwSectors: nat)
  {
    predicate Ok() { window > 0 }
  }

  /** BIOVEC_PHYS_MERGEABLE */
  predicate Adjacent(a: BVec, b: BVec) { a.addr + a.len == b.addr }

  /** BIOVEC_SEG_BOUNDARY: from the start of `a` to the end of `b` there is no boundary. */
  predicate SameWindow(q: Limits, a: BVec, b: BVec)
    requires q.Ok()
  {
    a.addr / q.window == (b.addr + b.len - 1) / q.window
  }

  predicate High(q: Limits, a: BVec) { a.pfn > q.bouncePfn }

  /** May `b` follow `a` in one segment?  Counting is stricter than mapping: pages that may be
      bounced stand alone. */
  predicate Joins(q: Limits, counting: bool, a: BVec, b: BVec)
    requires q.Ok()
  {
    q.cluster && Adjacent(a, b) && SameWindow(q, a, b) && (counting ==> !High(q, a) && !High(q, b))
  }

  function Sum(xs: seq<BVec>): nat {
    if xs == [] then 0 else Sum(xs[..|xs| - 1]) + xs[|xs| - 1].len
  }

  /** One segment: a single piece of any length, or pieces that join and are together no longer
      than the limit. */
  ghost predicate Segment(q: Limits, counting: bool, xs: seq<BVec>)
    requires q.Ok()
  {
    && xs != []
    && (forall i :: 0 <= i < |xs| - 1 ==> Joins(q, counting, xs[i], xs[i + 1]))
    && (|xs| > 1 ==> Sum(xs) <= q.maxSegmentSize)
  }

  function Flatten(parts: seq<seq<BVec>>): seq<BVec> {
    if parts == [] then [] else Flatten(parts[..|parts| - 1]) + parts[|parts| - 1]
  }

  ghost predicate Cut(q: Limits, counting: bool, parts: seq<seq<BVec>>)
    requires q.Ok()
  {
    forall i :: 0 <= i < |parts| ==> Segment(q, counting, parts[i])
  }

  /** The pieces can be cut into exactly `n` segments, the first no longer than `front` and the
      last no longer than `back`. */
  ghost predicate Fits(q: Limits, counting: bool, xs: seq<BVec>, n: nat, front: nat, back: nat)
    requires q.Ok()
  {
    exists parts ::
      && Cut(q, counting, parts) && Flatten(parts) == xs && |parts| == n > 0
      && Sum(parts[0]) <= front && Sum(parts[n - 1]) <= back
  }

  /** The number of segments the greedy loops open for `xs`, after piece `last` with the open
      segment `size` long. */
  function More(q: Limits, counting: bool, last: BVec, size: nat, xs: seq<BVec>): nat
    requires q.Ok()
    decreases |xs|
  {
    if xs == [] then 0
    else if Joins(q, counting, last, xs[0]) && size + xs[0].len <= q.maxSegmentSize then
      More(q, counting, xs[0], size + xs[0].len, xs[1..])
    else
      1 + More(q, counting, xs[0], xs[0].len, xs[1..])
  }

  function Greedy(q: Limits, counting: bool, xs: seq<BVec>): nat
    requires q.Ok()
  {
    if xs == [] then 0 else 1 + More(q, counting, xs[0], xs[0].len, xs[1..])
  }

  // Sequences of parts

  lemma {:induction false} SumConcat(xs: seq<BVec>, ys: seq<BVec>)
    ensures Sum(xs + ys) == Sum(xs) + Sum(ys)
  {
    if ys == [] {
      assert xs + ys == xs;
    } else {
      SumConcat(xs, ys[..|ys| - 1]);
      assert (xs + ys)[..|xs + ys| - 1] == xs + ys[..|ys| - 1];
    }
  }

  lemma {:induction false} FlattenConcat(p: seq<seq<BVec>>, r: seq<seq<BVec>>)
    ensures Flatten(p + r) == Flatten(p) + Flatten(r)
  {
    if r == [] {
      assert p + r == p;
    } else {
      FlattenConcat(p, r[..|r| - 1]);
      assert (p + r)[..|p + r| - 1] == p + r[..|r| - 1];
    }
  }

  lemma FlattenFirst(p: seq<seq<BVec>>)
    requires p != []
    ensures Flatten(p) == p[0] + Flatten(p[1..])
  {
    assert p == [p[0]] + p[1..];
    FlattenConcat([p[0]], p[1..]);
    assert Flatten([p[0]]) == Flatten([p[0]][..0]) + p[0];
  }

  // Greedy is minimal

  /** The other way of cutting: its open segment is `size` long with `rest` still to come, then
      the segments of `parts`. */
  ghost predicate Continues(q: Limits, counting: bool, last: BVec, size: nat, rest: seq<BVec>)
    requires q.Ok()
  {
    && (rest != [] ==> Joins(q, counting, last, rest[0]) && size + Sum(rest) <= q.maxSegmentSize)
    && (forall i :: 0 <= i < |rest| - 1 ==> Joins(q, counting, rest[i], rest[i + 1]))
  }

  lemma SumFirst(xs: seq<BVec>)
    requires xs != []
    ensures Sum(xs) == xs[0].len + Sum(xs[1..])
  {
    assert xs == [xs[0]] + xs[1..];
    SumConcat([xs[0]], xs[1..]);
    assert Sum([xs[0]]) == Sum([xs[0]][..0]) + xs[0].len;
  }

  lemma SegmentContinues(q: Limits, counting: bool, p: seq<BVec>)
    requires q.Ok() && Segment(q, counting, p)
    ensures p != []
    ensures Continues(q, counting, p[0], p[0].len, p[1..])
  {
    SumFirst(p);
    assert |p| > 1 ==> Joins(q, counting, p[0], p[0 + 1]);
    forall i | 0 <= i < |p[1..]| - 1
      ensures Joins(q, counting, p[1..][i], p[1..][i + 1])
    {
      assert Joins(q, counting, p[i + 1], p[i + 1 + 1]);
    }
  }

  lemma ContinuesOn(q: Limits, counting: bool, last: BVec, size: nat, rest: seq<BVec>)
    requires q.Ok() && rest != [] && Continues(q, counting, last, size, rest)
    ensures Continues(q, counting, rest[0], size + rest[0].len, rest[1..])
    ensures size + rest[0].len <= q.maxSegmentSize
  {
    SumFirst(rest);
    assert |rest| > 1 ==> Joins(q, counting, rest[0], rest[0 + 1]);
    forall i | 0 <= i < |rest[1..]| - 1
      ensures Joins(q, counting, rest[1..][i], rest[1..][i + 1])
    {
      assert Joins(q, counting, rest[i + 1], rest[i + 1 + 1]);
    }
  }

  /** The greedy loop never falls behind another way of cutting: it has opened fewer segments, or
      as many and its open segment is no longer. */
  lemma {:induction false} GreedyStaysAhead(q: Limits, counting: bool, last: BVec, size: nat, size': nat, rest: seq<BVec>, parts: seq<seq<BVec>>)
    requires q.Ok() && Continues(q, counting, last, size', rest) && Cut(q, counting, parts)
    ensures More(q, counting, last, size, rest + Flatten(parts)) <= |parts| + if size <= size' then 0 else 1
    decreases |rest| + |Flatten(parts)|
  {
    hide Segment, Joins, Continues, Flatten;
    if rest != [] {
      ContinuesOn(q, counting, last, size', rest);
      assert (rest + Flatten(parts))[1..] == rest[1..] + Flatten(parts);
      if Joins(q, counting, last, rest[0]) && size + rest[0].len <= q.maxSegmentSize {
        GreedyStaysAhead(q, counting, rest[0], size + rest[0].len, size' + rest[0].len, rest[1..], parts);
      } else {
        NotJoined(q, counting, last, size, size', rest);
        GreedyStaysAhead(q, counting, rest[0], rest[0].len, size' + rest[0].len, rest[1..], parts);
      }
    } else if parts != [] {
      OpensPart(q, counting, last, size, parts);
      var p := parts[0];
      if Joins(q, counting, last, p[0]) && size + p[0].len <= q.maxSegmentSize {
        GreedyStaysAhead(q, counting, p[0], size + p[0].len, p[0].len, p[1..], parts[1..]);
      } else {
        GreedyStaysAhead(q, counting, p[0], p[0].len, p[0].len, p[1..], parts[1..]);
      }
      assert rest + Flatten(parts) == Flatten(parts);
    } else {
      assert rest + Flatten(parts) == [] by { NoParts(); }
    }
  }

  lemma NoParts()
    ensures Flatten([]) == []
  {}

  lemma NotJoined(q: Limits, counting: bool, last: BVec, size: nat, size': nat, rest: seq<BVec>)
    requires q.Ok() && rest != [] && Continues(q, counting, last, size', rest)
    requires !(Joins(q, counting, last, rest[0]) && size + rest[0].len <= q.maxSegmentSize)
    ensures size > size'
  {
    SumFirst(rest);
  }

  lemma OpensPart(q: Limits, counting: bool, last: BVec, size: nat, parts: seq<seq<BVec>>)
    requires q.Ok() && Cut(q, counting, parts) && parts != []
    ensures parts[0] != [] && Continues(q, counting, parts[0][0], parts[0][0].len, parts[0][1..])
    ensures Cut(q, counting, parts[1..]) && |Flatten(parts)| == |parts[0]| + |Flatten(parts[1..])|
    ensures var p := parts[0]; var xs := p[1..] + Flatten(parts[1..]);
      More(q, counting, last, size, Flatten(parts)) ==
        if Joins(q, counting, last, p[0]) && size + p[0].len <= q.maxSegmentSize
        then More(q, counting, p[0], size + p[0].len, xs)
        else 1 + More(q, counting, p[0], p[0].len, xs)
  {
    hide Segment, Joins, Continues, Flatten;
    SegmentContinues(q, counting, parts[0]);
    FlattenFirst(parts);
    assert Flatten(parts)[1..] == parts[0][1..] + Flatten(parts[1..]);
  }

  /** No way of cutting has fewer segments. */
  lemma GreedyIsMinimal(q: Limits, counting: bool, parts: seq<seq<BVec>>)
    requires q.Ok() && Cut(q, counting, parts)
    ensures Greedy(q, counting, Flatten(parts)) <= |parts|
  {
    hide Segment, Joins, Continues, Flatten, More;
    if parts != [] {
      var p := parts[0];
      SegmentContinues(q, counting, p);
      FlattenFirst(parts);
      assert Flatten(parts)[1..] == p[1..] + Flatten(parts[1..]);
      GreedyStaysAhead(q, counting, p[0], p[0].len, p[0].len, p[1..], parts[1..]);
    } else {
      NoParts();
    }
  }

  // Ways of cutting a request

  lemma FitsBound(q: Limits, xs: seq<BVec>, n: nat, front: nat, back: nat)
    requires q.Ok() && Fits(q, false, xs, n, front, back)
    ensures Greedy(q, false, xs) <= n
  {
    hide Greedy, Flatten, Cut;
    var parts :| Cut(q, false, parts) && Flatten(parts) == xs && |parts| == n > 0
      && Sum(parts[0]) <= front && Sum(parts[n - 1]) <= back;
    GreedyIsMinimal(q, false, parts);
  }

  /** What counts as one segment maps as one, and the bounds may be loosened. */
  lemma FitsLoosen(q: Limits, counting: bool, xs: seq<BVec>, n: nat, front: nat, back: nat, front': nat, back': nat)
    requires q.Ok() && Fits(q, counting, xs, n, front, back) && front <= front' && back <= back'
    ensures Fits(q, false, xs, n, front', back')
  {
    var parts :| Cut(q, counting, parts) && Flatten(parts) == xs && |parts| == n > 0
      && Sum(parts[0]) <= front && Sum(parts[n - 1]) <= back;
    forall i | 0 <= i < |parts|
      ensures Segment(q, false, parts[i])
    {
      assert Segment(q, counting, parts[i]);
      forall j | 0 <= j < |parts[i]| - 1
        ensures Joins(q, false, parts[i][j], parts[i][j + 1])
      {
        assert Joins(q, counting, parts[i][j], parts[i][j + 1]);
      }
    }
    assert Cut(q, false, parts);
  }

  lemma FitsConcat(q: Limits, xs: seq<BVec>, n: nat, f1: nat, b1: nat, ys: seq<BVec>, m: nat, f2: nat, b2: nat)
    requires q.Ok() && Fits(q, false, xs, n, f1, b1) && Fits(q, false, ys, m, f2, b2)
    ensures Fits(q, false, xs + ys, n + m, f1, b2)
  {
    hide Segment, Flatten, Sum;
    var p1 :| Cut(q, false, p1) && Flatten(p1) == xs && |p1| == n > 0 && Sum(p1[0]) <= f1 && Sum(p1[n - 1]) <= b1;
    var p2 :| Cut(q, false, p2) && Flatten(p2) == ys && |p2| == m > 0 && Sum(p2[0]) <= f2 && Sum(p2[m - 1]) <= b2;
    FlattenConcat(p1, p2);
    assert Cut(q, false, p1 + p2);
  }

  lemma SegmentJoin(q: Limits, a: seq<BVec>, b: seq<BVec>)
    requires q.Ok() && Segment(q, false, a) && Segment(q, false, b)
    requires Joins(q, false, a[|a| - 1], b[0]) && Sum(a) + Sum(b) <= q.maxSegmentSize
    ensures Segment(q, false, a + b) && Sum(a + b) == Sum(a) + Sum(b)
  {
    hide Joins, Sum;
    SumConcat(a, b);
    var c := a + b;
    forall i | 0 <= i < |c| - 1
      ensures Joins(q, false, c[i], c[i + 1])
    {
      if i < |a| - 1 {
        assert Joins(q, false, a[i], a[i + 1]);
      } else if i >= |a| {
        assert Joins(q, false, b[i - |a|], b[i - |a| + 1]);
      }
    }
  }

  lemma FlattenEnds(p: seq<seq<BVec>>)
    requires p != [] && p[0] != [] && p[|p| - 1] != []
    ensures Flatten(p) != []
    ensures Flatten(p)[0] == p[0][0]
    ensures Flatten(p)[|Flatten(p)| - 1] == p[|p| - 1][|p[|p| - 1]| - 1]
  {
    FlattenFirst(p);
  }

  lemma JoinParts(q: Limits, p1: seq<seq<BVec>>, p2: seq<seq<BVec>>) returns (p: seq<seq<BVec>>)
    requires q.Ok() && Cut(q, false, p1) && Cut(q, false, p2) && p1 != [] && p2 != []
    requires Flatten(p1) != [] && Flatten(p2) != []
    requires Joins(q, false, Flatten(p1)[|Flatten(p1)| - 1], Flatten(p2)[0])
    requires Sum(p1[|p1| - 1]) + Sum(p2[0]) <= q.maxSegmentSize
    ensures p == p1[..|p1| - 1] + [p1[|p1| - 1] + p2[0]] + p2[1..]
    ensures Cut(q, false, p) && Flatten(p) == Flatten(p1) + Flatten(p2)
    ensures Sum(p1[|p1| - 1] + p2[0]) == Sum(p1[|p1| - 1]) + Sum(p2[0])
  {
    hide Joins, Sum, Flatten;
    var a, b := p1[|p1| - 1], p2[0];
    assert Segment(q, false, a) && Segment(q, false, b) && Segment(q, false, p1[0]) && Segment(q, false, p2[|p2| - 1]);
    FlattenEnds(p1);
    FlattenEnds(p2);
    SegmentJoin(q, a, b);
    p := p1[..|p1| - 1] + [a + b] + p2[1..];
    JoinedFlatten(p1, p2);
  }

  lemma FlattenLast(l: seq<seq<BVec>>, a: seq<BVec>)
    ensures Flatten(l + [a]) == Flatten(l) + a
  {
    assert (l + [a])[..|l|] == l;
  }

  lemma JoinedFlatten(p1: seq<seq<BVec>>, p2: seq<seq<BVec>>)
    requires p1 != [] && p2 != []
    ensures Flatten(p1[..|p1| - 1] + [p1[|p1| - 1] + p2[0]] + p2[1..]) == Flatten(p1) + Flatten(p2)
  {
    hide Flatten;
    var l, a, b, r := p1[..|p1| - 1], p1[|p1| - 1], p2[0], p2[1..];
    FlattenConcat(l + [a + b], r);
    FlattenLast(l, a + b);
    FlattenLast(l, a);
    assert p1 == l + [a];
    FlattenFirst(p2);
    Regroup(Flatten(l), a, b, Flatten(r));
  }

  lemma Regroup(l: seq<BVec>, a: seq<BVec>, b: seq<BVec>, r: seq<BVec>)
    ensures l + (a + b) + r == l + a + (b + r)
  {}

  /** Two requests whose facing segments join count one segment less. */
  lemma FitsJoin(q: Limits, xs: seq<BVec>, n: nat, f1: nat, b1: nat, ys: seq<BVec>, m: nat, f2: nat, b2: nat)
    requires q.Ok() && Fits(q, false, xs, n, f1, b1) && Fits(q, false, ys, m, f2, b2) && xs != [] && ys != []
    requires Joins(q, false, xs[|xs| - 1], ys[0]) && b1 + f2 <= q.maxSegmentSize
    ensures Fits(q, false, xs + ys, n + m - 1, if n == 1 then b1 + f2 else f1, if m == 1 then b1 + f2 else b2)
  {
    hide Joins, Sum, Flatten, Segment;
    var p1 :| Cut(q, false, p1) && Flatten(p1) == xs && |p1| == n > 0 && Sum(p1[0]) <= f1 && Sum(p1[n - 1]) <= b1;
    var p2 :| Cut(q, false, p2) && Flatten(p2) == ys && |p2| == m > 0 && Sum(p2[0]) <= f2 && Sum(p2[m - 1]) <= b2;
    var p := JoinParts(q, p1, p2);
    assert |p| == n + m - 1;
    assert p[n - 1] == p1[n - 1] + p2[0];
    assert n > 1 ==> p[0] == p1[0];
    assert m > 1 ==> p[|p| - 1] == p2[m - 1];
  }
}

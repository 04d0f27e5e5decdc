/** The deadline scheduler: requests of each direction in a list sorted by sector and in a list
    sorted by deadline, and the rule that picks the next one. */
module DeadlineModel {
  import opened Options

  datatype Dir = Read | Write
  {
    function Other(): Dir { if Read? then Write else Read }
  }

  /** A request in the sector list. */
  datatype Item = Item(id: nat, pos: nat)

  /** A request in the deadline list. */
  datatype Wait = Wait(id: nat, deadline: int)

  /** The lists of one direction, and the next request in sector order if a batch can go on. */
  datatype Side = Side(sort: seq<Item>, fifo: seq<Wait>, next: Option<nat>)

  datatype Tunables = Tunables(readExpire: int, writeExpire: int, fifoBatch: int, writesStarved: int)
  {
    function Expire(d: Dir): int { if d.Read? then readExpire else writeExpire }
  }

  datatype Sched = Sched(read: Side, write: Side, batching: nat, starved: nat)
  {
    function Get(d: Dir): Side { if d.Read? then read else write }

    function Put(d: Dir, s: Side): Sched { if d.Read? then this.(read := s) else this.(write := s) }
  }

  const EMPTY := Sched(Side([], [], None), Side([], [], None), 0, 0)

  // Lists

  ghost predicate Increasing(sort: seq<Item>) {
    forall i, j :: 0 <= i < j < |sort| ==> sort[i].pos < sort[j].pos
  }

  ghost predicate DistinctItems(sort: seq<Item>) {
    forall i, j :: 0 <= i < j < |sort| ==> sort[i].id != sort[j].id
  }

  ghost predicate DistinctWaits(fifo: seq<Wait>) {
    forall i, j :: 0 <= i < j < |fifo| ==> fifo[i].id != fifo[j].id
  }

  ghost predicate InSort(sort: seq<Item>, id: nat) {
    exists i :: 0 <= i < |sort| && sort[i].id == id
  }

  ghost predicate InFifo(fifo: seq<Wait>, id: nat) {
    exists i :: 0 <= i < |fifo| && fifo[i].id == id
  }

  /** Both lists hold the same requests, each once, except that request `out` may be out of the
      sector list while it is being moved there. */
  ghost predicate SideBut(s: Side, out: Option<nat>) {
    && Increasing(s.sort) && DistinctItems(s.sort) && DistinctWaits(s.fifo)
    && (forall id: nat :: InSort(s.sort, id) || out == Some(id) <==> InFifo(s.fifo, id))
    && (s.next.Some? ==> InSort(s.sort, s.next.value) || out == s.next)
    && (out.Some? ==> !InSort(s.sort, out.value))
  }

  ghost predicate SideOk(s: Side) { SideBut(s, None) }

  /** A batch runs in one direction at a time. */
  ghost predicate InvBut(s: Sched, d: Dir, out: Option<nat>) {
    SideBut(s.Get(d), out) && SideOk(s.Get(d.Other())) && (s.read.next.None? || s.write.next.None?)
  }

  ghost predicate Inv(s: Sched) {
    SideOk(s.read) && SideOk(s.write) && (s.read.next.None? || s.write.next.None?)
  }

  /** Where a request is in the sector list; past the end if nowhere. */
  function Place(sort: seq<Item>, id: nat): (i: nat)
    ensures i <= |sort| && (i < |sort| ==> sort[i].id == id) && forall j :: 0 <= j < i ==> sort[j].id != id
  {
    if sort == [] || sort[0].id == id then 0 else 1 + Place(sort[1..], id)
  }

  function Turn(fifo: seq<Wait>, id: nat): (i: nat)
    ensures i <= |fifo| && (i < |fifo| ==> fifo[i].id == id) && forall j :: 0 <= j < i ==> fifo[j].id != id
  {
    if fifo == [] || fifo[0].id == id then 0 else 1 + Turn(fifo[1..], id)
  }

  function Cut<T>(s: seq<T>, i: nat): seq<T> {
    if i < |s| then s[..i] + s[i + 1..] else s
  }

  /** deadline_latter_request */
  function Latter(sort: seq<Item>, id: nat): Option<nat> {
    var i := Place(sort, id);
    if i + 1 < |sort| then Some(sort[i + 1].id) else None
  }

  /** deadline_remove_request */
  function Removed(s: Side, id: nat): Side {
    Side(Cut(s.sort, Place(s.sort, id)), Cut(s.fifo, Turn(s.fifo, id)),
         if s.next == Some(id) then Latter(s.sort, id) else s.next)
  }

  /** deadline_move_request: the request leaves, and a batch can go on behind it. */
  function Moved(s: Sched, d: Dir, id: nat): Sched {
    var side := s.Get(d).(next := Latter(s.Get(d).sort, id));
    var other := s.Get(d.Other()).(next := None);
    s.Put(d.Other(), other).Put(d, Removed(side, id))
  }

  // What removal keeps

  lemma CutKeeps<T>(s: seq<T>, i: nat)
    requires i < |s|
    ensures |Cut(s, i)| == |s| - 1
    ensures forall j :: 0 <= j < |s| - 1 ==> Cut(s, i)[j] == s[if j < i then j else j + 1]
  {}

  lemma CutSort(sort: seq<Item>, id: nat)
    requires Increasing(sort) && DistinctItems(sort)
    ensures var r := Cut(sort, Place(sort, id));
      && Increasing(r) && DistinctItems(r) && forall x :: InSort(r, x) <==> x != id && InSort(sort, x)
  {
    hide Cut, Place;
    var i := Place(sort, id);
    if i < |sort| {
      CutKeeps(sort, i);
      CutMembers(sort, i);
    } else {
      NotCut(sort, i);
    }
  }

  lemma NotCut<T>(s: seq<T>, i: nat)
    requires i >= |s|
    ensures Cut(s, i) == s
  {}

  lemma CutMembers(sort: seq<Item>, i: nat)
    requires i < |sort| && DistinctItems(sort)
    ensures forall x :: InSort(Cut(sort, i), x) <==> x != sort[i].id && InSort(sort, x)
  {
    hide Cut;
    CutKeeps(sort, i);
    var r := Cut(sort, i);
    forall x | x != sort[i].id && InSort(sort, x)
      ensures InSort(r, x)
    {
      var k :| 0 <= k < |sort| && sort[k].id == x;
      assert r[if k < i then k else k - 1] == sort[k];
    }
  }

  lemma CutFifo(fifo: seq<Wait>, id: nat)
    requires DistinctWaits(fifo)
    ensures var r := Cut(fifo, Turn(fifo, id));
      && DistinctWaits(r) && forall x :: InFifo(r, x) <==> x != id && InFifo(fifo, x)
  {
    var i := Turn(fifo, id);
    var r := Cut(fifo, i);
    forall x | x != id && InFifo(fifo, x)
      ensures InFifo(r, x)
    {
      var k :| 0 <= k < |fifo| && fifo[k].id == x;
      assert r[if k < i then k else k - 1] == fifo[k];
    }
  }

  lemma LatterOk(sort: seq<Item>, id: nat)
    requires DistinctItems(sort)
    ensures Latter(sort, id).Some? ==> Latter(sort, id).value != id && InSort(sort, Latter(sort, id).value)
  {
    var i := Place(sort, id);
    if i + 1 < |sort| {
      assert sort[i].id == id;
    }
  }

  lemma RemovedOk(s: Side, id: nat, out: Option<nat>)
    requires SideBut(s, out) && out != Some(id)
    ensures SideBut(Removed(s, id), out)
    ensures forall x :: InSort(Removed(s, id).sort, x) <==> x != id && InSort(s.sort, x)
  {
    hide InSort, InFifo, Increasing, DistinctWaits, DistinctItems;
    CutSort(s.sort, id);
    CutFifo(s.fifo, id);
    LatterOk(s.sort, id);
  }

  lemma MovedInv(s: Sched, d: Dir, id: nat, out: Option<nat>)
    requires InvBut(s, d, out) && out != Some(id)
    ensures InvBut(Moved(s, d, id), d, out)
    ensures forall x :: InSort(Moved(s, d, id).Get(d).sort, x) <==> x != id && InSort(s.Get(d).sort, x)
    ensures Moved(s, d, id).Get(d.Other()) == s.Get(d.Other()).(next := None)
    ensures Moved(s, d, id).batching == s.batching && Moved(s, d, id).starved == s.starved
    ensures Moved(s, d, id).Get(d).sort == Cut(s.Get(d).sort, Place(s.Get(d).sort, id))
    ensures Moved(s, d, id).Get(d).fifo == Cut(s.Get(d).fifo, Turn(s.Get(d).fifo, id))
  {
    hide InSort, InFifo, Increasing, DistinctWaits, DistinctItems;
    LatterOk(s.Get(d).sort, id);
    RemovedOk(s.Get(d).(next := Latter(s.Get(d).sort, id)), id, out);
  }

  // The next request

  lemma WhereIs(sort: seq<Item>, id: nat) returns (p: nat)
    requires InSort(sort, id)
    ensures Item(id, p) in sort
  {
    var i :| 0 <= i < |sort| && sort[i].id == id;
    p := sort[i].pos;
    assert sort[i] == Item(id, p);
  }

  /** `next` is the queued request with the least sector above `p`; none if none is above. */
  ghost predicate LeastAbove(sort: seq<Item>, p: nat, next: Option<nat>) {
    if next.None? then forall x :: x in sort ==> x.pos <= p
    else exists q: nat :: Item(next.value, q) in sort && p < q && forall x :: x in sort && p < x.pos ==> q <= x.pos
  }

  lemma PlaceOf(sort: seq<Item>, id: nat, p: nat) returns (i: nat)
    requires DistinctItems(sort) && Item(id, p) in sort
    ensures i < |sort| && sort[i] == Item(id, p) && Place(sort, id) == i
  {
    i :| 0 <= i < |sort| && sort[i] == Item(id, p);
    assert Place(sort, id) <= i;
  }

  /** What deadline_latter_request gives. */
  lemma LatterAbove(sort: seq<Item>, id: nat, p: nat)
    requires Increasing(sort) && DistinctItems(sort) && Item(id, p) in sort
    ensures LeastAbove(sort, p, Latter(sort, id))
  {
    hide Place;
    var i := PlaceOf(sort, id, p);
    if i + 1 < |sort| {
      assert sort[i + 1] == Item(Latter(sort, id).value, sort[i + 1].pos);
    }
  }

  lemma CutItems(sort: seq<Item>, id: nat, p: nat)
    requires DistinctItems(sort) && Item(id, p) in sort
    ensures forall x :: x in Cut(sort, Place(sort, id)) <==> x in sort && x.id != id
  {
    hide Place, Cut;
    var i := PlaceOf(sort, id, p);
    CutKeeps(sort, i);
    var r := Cut(sort, i);
    forall x | x in sort && x.id != id
      ensures x in r
    {
      var k :| 0 <= k < |sort| && sort[k] == x;
      assert r[if k < i then k else k - 1] == x;
    }
  }

  lemma SameLeast(sort: seq<Item>, r: seq<Item>, p: nat, next: Option<nat>)
    requires LeastAbove(sort, p, next) && forall x: Item :: p < x.pos ==> (x in sort <==> x in r)
    requires forall x :: x in r ==> x in sort || x.pos <= p
    ensures LeastAbove(r, p, next)
  {}

  /** When a request at sector `p` is removed, the next one of its direction moves on only if it was that one, and
      then to the least sector above. */
  lemma RemovedNext(s: Side, id: nat, p: nat)
    requires Increasing(s.sort) && DistinctItems(s.sort) && Item(id, p) in s.sort
    ensures if s.next == Some(id) then LeastAbove(Removed(s, id).sort, p, Removed(s, id).next)
      else Removed(s, id).next == s.next
  {
    hide Cut, Place, Latter, Increasing, LeastAbove;
    LatterAbove(s.sort, id, p);
    CutItems(s.sort, id, p);
    OnlyAt(s.sort, id, p);
    if s.next == Some(id) {
      SameLeast(s.sort, Cut(s.sort, Place(s.sort, id)), p, Latter(s.sort, id));
    }
  }

  lemma OnlyAt(sort: seq<Item>, id: nat, p: nat)
    requires DistinctItems(sort) && Item(id, p) in sort
    ensures forall x :: x in sort && x.id == id ==> x.pos == p
  {}

  /** After a request at sector `p` is dispatched, the next one is that of the least sector above `p`, and there is
      none in the other direction. */
  lemma MovedNext(s: Sched, d: Dir, id: nat, p: nat)
    requires Increasing(s.Get(d).sort) && DistinctItems(s.Get(d).sort) && Item(id, p) in s.Get(d).sort
    ensures var u := Moved(s, d, id);
      LeastAbove(u.Get(d).sort, p, u.Get(d).next) && u.Get(d.Other()).next == None
  {
    hide Cut, Place, Latter, Increasing, LeastAbove, DistinctItems;
    var sort := s.Get(d).sort;
    LatterAbove(sort, id, p);
    CutItems(sort, id, p);
    OnlyAt(sort, id, p);
    SameLeast(sort, Cut(sort, Place(sort, id)), p, Latter(sort, id));
    NotItself(sort, id);
  }

  lemma NotItself(sort: seq<Item>, id: nat)
    requires DistinctItems(sort)
    ensures Latter(sort, id) != Some(id)
  {
    LatterOk(sort, id);
  }

  // Adding

  /** The place of a sector in the sector list. */
  function Spot(sort: seq<Item>, pos: nat): (i: nat)
    ensures i <= |sort| && (i < |sort| ==> pos <= sort[i].pos) && forall j :: 0 <= j < i ==> sort[j].pos < pos
  {
    if sort == [] || pos <= sort[0].pos then 0 else 1 + Spot(sort[1..], pos)
  }

  /** The request that starts at the same sector. */
  function Alias(sort: seq<Item>, pos: nat): Option<nat> {
    var i := Spot(sort, pos);
    if i < |sort| && sort[i].pos == pos then Some(sort[i].id) else None
  }

  /** deadline_add_rq_rb: a request at the same sector is dispatched to make room. */
  function Sorted(s: Sched, d: Dir, item: Item): Sched {
    var alias := Alias(s.Get(d).sort, item.pos);
    var t := if alias.Some? then Moved(s, d, alias.value) else s;
    var sort := t.Get(d).sort;
    var i := Spot(sort, item.pos);
    t.Put(d, t.Get(d).(sort := Insert(sort, i, item)))
  }

  /** No request starts at the sector. */
  ghost predicate Vacant(sort: seq<Item>, pos: nat) {
    forall i :: 0 <= i < |sort| ==> sort[i].pos != pos
  }

  lemma AliasGone(sort: seq<Item>, pos: nat)
    requires Increasing(sort)
    ensures Alias(sort, pos).Some? ==> InSort(sort, Alias(sort, pos).value)
    ensures var r := if Alias(sort, pos).Some? then Cut(sort, Place(sort, Alias(sort, pos).value)) else sort;
      DistinctItems(sort) ==> Vacant(r, pos)
  {
    var k := Spot(sort, pos);
    if Alias(sort, pos).Some? && DistinctItems(sort) {
      assert Place(sort, sort[k].id) == k;
    }
  }

  function Insert<T>(s: seq<T>, i: nat, x: T): (r: seq<T>)
    requires i <= |s|
    ensures |r| == |s| + 1 && r[i] == x
    ensures forall k :: 0 <= k < |r| && k != i ==> r[k] == s[if k < i then k else k - 1]
  {
    s[..i] + [x] + s[i..]
  }

  lemma InsertIncreasing(sort: seq<Item>, item: Item)
    requires Increasing(sort) && forall i :: 0 <= i < |sort| ==> sort[i].pos != item.pos
    ensures Increasing(Insert(sort, Spot(sort, item.pos), item))
  {
    hide Insert;
    var i := Spot(sort, item.pos);
    var r := Insert(sort, i, item);
    forall x, y | 0 <= x < y < |r|
      ensures r[x].pos < r[y].pos
    {
      if x == i {
        assert r[y] == sort[y - 1];
        assert i == y - 1 || sort[i].pos < sort[y - 1].pos;
      } else if y == i {
        assert r[x] == sort[x];
      } else {
        var x', y' := if x < i then x else x - 1, if y < i then y else y - 1;
        assert r[x] == sort[x'] && r[y] == sort[y'];
      }
    }
  }

  lemma InsertDistinct(sort: seq<Item>, i: nat, item: Item)
    requires i <= |sort| && DistinctItems(sort) && !InSort(sort, item.id)
    ensures DistinctItems(Insert(sort, i, item))
    ensures forall x :: InSort(Insert(sort, i, item), x) <==> x == item.id || InSort(sort, x)
  {
    hide Insert;
    var r := Insert(sort, i, item);
    forall x, y | 0 <= x < y < |r|
      ensures r[x].id != r[y].id
    {
      var x', y' := if x < i then x else x - 1, if y < i then y else y - 1;
      assert x != i ==> r[x] == sort[x'];
      assert y != i ==> r[y] == sort[y'];
    }
    forall x | InSort(sort, x)
      ensures InSort(r, x)
    {
      var k :| 0 <= k < |sort| && sort[k].id == x;
      assert r[if k < i then k else k + 1] == sort[k];
    }
  }

  lemma PutIn(s: Sched, d: Dir, item: Item)
    requires InvBut(s, d, Some(item.id)) && Vacant(s.Get(d).sort, item.pos)
    ensures var sort := s.Get(d).sort;
      Inv(s.Put(d, s.Get(d).(sort := Insert(sort, Spot(sort, item.pos), item))))
  {
    hide InSort, InFifo, Increasing, DistinctWaits, DistinctItems, Insert;
    InsertIncreasing(s.Get(d).sort, item);
    InsertDistinct(s.Get(d).sort, Spot(s.Get(d).sort, item.pos), item);
  }

  /** Sorting a request in: its place is free, and the request that had it is gone. */
  lemma SortedInv(s: Sched, d: Dir, item: Item)
    requires InvBut(s, d, Some(item.id))
    ensures Inv(Sorted(s, d, item))
    ensures Sorted(s, d, item).batching == s.batching && Sorted(s, d, item).starved == s.starved
    ensures Sorted(s, d, item).Get(d.Other()).fifo == s.Get(d.Other()).fifo
    ensures var alias := Alias(s.Get(d).sort, item.pos);
      Sorted(s, d, item).Get(d).fifo ==
        if alias.Some? then Cut(s.Get(d).fifo, Turn(s.Get(d).fifo, alias.value)) else s.Get(d).fifo
  {
    hide InSort, InFifo, Increasing, DistinctWaits, DistinctItems, Spot, Insert, Alias, Moved, Vacant;
    var sort := s.Get(d).sort;
    var alias := Alias(sort, item.pos);
    AliasGone(sort, item.pos);
    var t := s;
    if alias.Some? {
      MovedInv(s, d, alias.value, Some(item.id));
      t := Moved(s, d, alias.value);
    }
    PutIn(t, d, item);
  }

  lemma InsertItems(sort: seq<Item>, i: nat, item: Item)
    requires i <= |sort|
    ensures forall x :: x in Insert(sort, i, item) <==> x == item || x in sort
  {
    assert sort == sort[..i] + sort[i..];
  }

  lemma AliasItem(sort: seq<Item>, pos: nat)
    ensures Alias(sort, pos).Some? ==> Item(Alias(sort, pos).value, pos) in sort
    ensures Increasing(sort) && Alias(sort, pos).None? ==> forall x :: x in sort ==> x.pos != pos
  {
    var i := Spot(sort, pos);
    if i < |sort| && sort[i].pos == pos {
      assert sort[i] == Item(sort[i].id, pos);
    }
  }

  /** Afterwards the list holds the request, and all others but one that started at its sector. */
  lemma SortedItems(s: Sched, d: Dir, item: Item)
    requires Increasing(s.Get(d).sort) && DistinctItems(s.Get(d).sort)
    ensures forall x :: x in Sorted(s, d, item).Get(d).sort <==> x == item || (x in s.Get(d).sort && x.pos != item.pos)
    ensures Sorted(s, d, item).Get(d.Other()).sort == s.Get(d.Other()).sort
  {
    hide Alias, Spot, Increasing, DistinctItems, Cut, Place, Latter;
    var sort := s.Get(d).sort;
    var alias := Alias(sort, item.pos);
    AliasItem(sort, item.pos);
    var r := if alias.Some? then Cut(sort, Place(sort, alias.value)) else sort;
    if alias.Some? {
      CutItems(sort, alias.value, item.pos);
      OneAt(sort, alias.value, item.pos);
    }
    InsertItems(r, Spot(r, item.pos), item);
  }

  lemma OneAt(sort: seq<Item>, id: nat, p: nat)
    requires Increasing(sort) && DistinctItems(sort) && Item(id, p) in sort
    ensures forall x :: x in sort ==> (x.id == id <==> x.pos == p)
  {}

  /** deadline_add_request */
  function Added(s: Sched, d: Dir, item: Item, deadline: int): Sched {
    var t := Sorted(s, d, item);
    t.Put(d, t.Get(d).(fifo := t.Get(d).fifo + [Wait(item.id, deadline)]))
  }

  /** Is the request new to both lists? */
  ghost predicate New(s: Sched, d: Dir, id: nat) {
    !InSort(s.Get(d).sort, id) && !InFifo(s.Get(d).fifo, id)
  }

  lemma TurnAppend(fifo: seq<Wait>, id: nat, w: Wait)
    requires InFifo(fifo, id)
    ensures Turn(fifo + [w], id) == Turn(fifo, id) < |fifo|
    ensures Cut(fifo + [w], Turn(fifo, id)) == Cut(fifo, Turn(fifo, id)) + [w]
  {
    hide Turn;
    var i := Turn(fifo, id);
    assert i < |fifo|;
    assert (fifo + [w])[i] == fifo[i];
    TurnIs(fifo + [w], id, i);
  }

  lemma TurnIs(fifo: seq<Wait>, id: nat, i: nat)
    requires i < |fifo| && fifo[i].id == id && forall j :: 0 <= j < i ==> fifo[j].id != id
    ensures Turn(fifo, id) == i
  {}

  lemma AppendBut(s: Sched, d: Dir, id: nat, deadline: int)
    requires Inv(s) && New(s, d, id)
    ensures InvBut(s.Put(d, s.Get(d).(fifo := s.Get(d).fifo + [Wait(id, deadline)])), d, Some(id))
  {
    hide InSort, Increasing, DistinctItems;
    var fifo := s.Get(d).fifo;
    var r := fifo + [Wait(id, deadline)];
    assert r[|fifo|].id == id;
    forall x | InFifo(fifo, x)
      ensures InFifo(r, x)
    {
      var k :| 0 <= k < |fifo| && fifo[k].id == x;
      assert r[k] == fifo[k];
    }
    assert DistinctWaits(r) by {
      assert forall k :: 0 <= k < |fifo| ==> r[k] == fifo[k] && fifo[k].id != id;
    }
  }

  lemma AddedInv(s: Sched, d: Dir, item: Item, deadline: int)
    requires Inv(s) && New(s, d, item.id)
    ensures Inv(Added(s, d, item, deadline))
    ensures Added(s, d, item, deadline).batching == s.batching && Added(s, d, item, deadline).starved == s.starved
    ensures Added(s, d, item, deadline).Get(d.Other()).fifo == s.Get(d.Other()).fifo
    ensures var alias := Alias(s.Get(d).sort, item.pos); var fifo := s.Get(d).fifo;
      Added(s, d, item, deadline).Get(d).fifo ==
        (if alias.Some? then Cut(fifo, Turn(fifo, alias.value)) else fifo) + [Wait(item.id, deadline)]
  {
    hide InSort, InFifo, Increasing, DistinctItems, DistinctWaits, Alias, Spot, Insert, Turn, Place, Cut, Latter;
    var w := Wait(item.id, deadline);
    var u := s.Put(d, s.Get(d).(fifo := s.Get(d).fifo + [w]));
    AppendBut(s, d, item.id, deadline);
    SortedInv(u, d, item);
    var alias := Alias(s.Get(d).sort, item.pos);
    AliasGone(s.Get(d).sort, item.pos);
    if alias.Some? {
      TurnAppend(s.Get(d).fifo, alias.value, w);
    }
    assert Added(s, d, item, deadline) == Sorted(u, d, item);
  }

  /** deadline_merged_request after a front merge: the request starts earlier. */
  function Repositioned(s: Sched, d: Dir, item: Item): Sched {
    var side := s.Get(d);
    Sorted(s.Put(d, side.(sort := Cut(side.sort, Place(side.sort, item.id)))), d, item)
  }

  lemma RepositionedInv(s: Sched, d: Dir, item: Item)
    requires Inv(s) && InSort(s.Get(d).sort, item.id)
    ensures Inv(Repositioned(s, d, item))
    ensures Repositioned(s, d, item).batching == s.batching && Repositioned(s, d, item).starved == s.starved
    ensures Repositioned(s, d, item).Get(d.Other()).fifo == s.Get(d.Other()).fifo
    ensures var side := s.Get(d);
      var alias := Alias(Cut(side.sort, Place(side.sort, item.id)), item.pos);
      (alias.Some? ==> alias.value != item.id)
      && Repositioned(s, d, item).Get(d).fifo == if alias.Some? then Cut(side.fifo, Turn(side.fifo, alias.value)) else side.fifo
  {
    hide InSort, InFifo, Increasing, DistinctItems, DistinctWaits, Alias, Spot, Insert, Turn, Place, Cut, Latter, Sorted;
    var side := s.Get(d);
    CutSort(side.sort, item.id);
    var sort := Cut(side.sort, Place(side.sort, item.id));
    AliasGone(sort, item.pos);
    SortedInv(s.Put(d, side.(sort := sort)), d, item);
  }

  /** deadline_merged_requests on the deadline list: the earlier deadline and its place survive. */
  function MergedFifo(fifo: seq<Wait>, req: nat, next: nat): seq<Wait> {
    var i, j := Turn(fifo, req), Turn(fifo, next);
    if i < |fifo| && j < |fifo| && fifo[j].deadline < fifo[i].deadline
    then Cut(fifo[j := Wait(req, fifo[j].deadline)], i)
    else Cut(fifo, j)
  }

  function Merged(s: Sched, d: Dir, req: nat, next: nat): Sched {
    var side := s.Get(d);
    s.Put(d, Removed(side, next).(fifo := MergedFifo(side.fifo, req, next)))
  }

  /** Entry `j` is taken over by the request of entry `i`, which goes away. */
  lemma TakenOver(fifo: seq<Wait>, i: nat, j: nat)
    requires DistinctWaits(fifo) && i < |fifo| && j < |fifo| && i != j
    ensures var r := Cut(fifo[j := fifo[j].(id := fifo[i].id)], i);
      && DistinctWaits(r)
      && forall x :: InFifo(r, x) <==> x != fifo[j].id && InFifo(fifo, x)
  {
    hide Cut;
    var u := fifo[j := fifo[j].(id := fifo[i].id)];
    CutKeeps(u, i);
    var r := Cut(u, i);
    forall x | InFifo(r, x)
      ensures x != fifo[j].id && InFifo(fifo, x)
    {
      var k :| 0 <= k < |r| && r[k].id == x;
      var k' := if k < i then k else k + 1;
      assert r[k] == u[k'];
      assert fifo[if k' == j then i else k'].id == x;
    }
    forall x | x != fifo[j].id && InFifo(fifo, x)
      ensures InFifo(r, x)
    {
      var k :| 0 <= k < |fifo| && fifo[k].id == x;
      var k' := if k == i then j else k;
      assert r[if k' < i then k' else k' - 1] == u[k'];
    }
    forall a, b | 0 <= a < b < |r|
      ensures r[a].id != r[b].id
    {
      var a', b' := if a < i then a else a + 1, if b < i then b else b + 1;
      assert r[a] == u[a'] && r[b] == u[b'];
    }
  }

  lemma MergedFifoOk(fifo: seq<Wait>, req: nat, next: nat)
    requires DistinctWaits(fifo) && InFifo(fifo, req) && InFifo(fifo, next) && req != next
    ensures DistinctWaits(MergedFifo(fifo, req, next))
    ensures forall x :: InFifo(MergedFifo(fifo, req, next), x) <==> x != next && InFifo(fifo, x)
  {
    hide Cut, Turn;
    var i, j := Turn(fifo, req), Turn(fifo, next);
    assert i < |fifo| && j < |fifo| && i != j;
    if fifo[j].deadline < fifo[i].deadline {
      assert Wait(req, fifo[j].deadline) == fifo[j].(id := fifo[i].id);
      TakenOver(fifo, i, j);
    } else {
      CutFifo(fifo, next);
    }
  }

  lemma CutTurned(fifo: seq<Wait>, k: nat, id: nat)
    requires Turn(fifo, id) < |fifo| && k != Turn(fifo, id)
    ensures var r := Cut(fifo, k); var i := Turn(fifo, id);
      && Turn(r, id) == (if k < i then i - 1 else i) < |r| && r[Turn(r, id)] == fifo[i]
  {
    hide Turn, Cut;
    var i := Turn(fifo, id);
    if k < |fifo| {
      CutKeeps(fifo, k);
      TurnIs(Cut(fifo, k), id, if k < i then i - 1 else i);
    } else {
      NotCut(fifo, k);
    }
  }

  /** After a merge the request that stays waits for the earlier of the two deadlines, and every other request for
      its own. */
  lemma MergedDeadlines(fifo: seq<Wait>, req: nat, next: nat, id: nat)
    requires DistinctWaits(fifo) && req != next && id != next
    requires Turn(fifo, req) < |fifo| && Turn(fifo, next) < |fifo| && Turn(fifo, id) < |fifo|
    ensures var r := MergedFifo(fifo, req, next); var own := fifo[Turn(fifo, id)].deadline;
      var other := fifo[Turn(fifo, next)].deadline;
      && Turn(r, id) < |r|
      && r[Turn(r, id)].deadline == if id == req && other < own then other else own
  {
    hide Turn, Cut;
    var i, j := Turn(fifo, req), Turn(fifo, next);
    if fifo[j].deadline < fifo[i].deadline {
      var u := fifo[j := Wait(req, fifo[j].deadline)];
      if id == req {
        var k := if j < i then j else j - 1;
        CutKeeps(u, i);
        assert Cut(u, i)[k] == u[j];
        TurnIs(Cut(u, i), id, k);
      } else {
        TurnIs(u, id, Turn(fifo, id));
        CutTurned(u, i, id);
      }
    } else {
      CutTurned(fifo, j, id);
    }
  }

  lemma MergedInv(s: Sched, d: Dir, req: nat, next: nat)
    requires Inv(s) && InSort(s.Get(d).sort, req) && InSort(s.Get(d).sort, next) && req != next
    ensures Inv(Merged(s, d, req, next))
    ensures Merged(s, d, req, next).batching == s.batching && Merged(s, d, req, next).starved == s.starved
    ensures Merged(s, d, req, next).Get(d.Other()) == s.Get(d.Other())
    ensures Merged(s, d, req, next).Get(d).fifo == MergedFifo(s.Get(d).fifo, req, next)
  {
    hide InSort, InFifo, Increasing, DistinctItems, DistinctWaits, Turn, Place, Cut, Latter, MergedFifo;
    RemovedOk(s.Get(d), next, None);
    MergedFifoOk(s.Get(d).fifo, req, next);
  }

  // Dispatching

  /** What deadline_dispatch_requests decides: nothing to do, the next of a running batch, or the
      first of a new one. */
  datatype Choice = Nothing | Continue(dir: Dir, id: nat) | Select(dir: Dir, id: nat)

  /** The direction of a new batch. */
  function Turned(s: Sched, t: Tunables): Option<Dir> {
    if s.read.fifo != [] then
      Some(if s.write.fifo != [] && s.starved >= t.writesStarved then Write else Read)
    else if s.write.fifo != [] then Some(Write) else None
  }

  /** The first request of a new batch. */
  function First(side: Side, now: int): nat
    requires side.fifo != []
  {
    if now > side.fifo[0].deadline || side.next.None? then side.fifo[0].id else side.next.value
  }

  function Choose(s: Sched, t: Tunables, now: int): Choice {
    if s.write.next.Some? && s.batching < t.fifoBatch then Continue(Write, s.write.next.value)
    else if s.write.next.None? && s.read.next.Some? && s.batching < t.fifoBatch then Continue(Read, s.read.next.value)
    else
      match Turned(s, t)
      case None => Nothing
      case Some(d) => Select(d, First(s.Get(d), now))
  }

  function Dispatched(s: Sched, t: Tunables, now: int): Sched {
    match Choose(s, t, now)
    case Nothing => s
    case Continue(d, id) => Moved(s.(batching := s.batching + 1), d, id)
    case Select(d, id) =>
      var starved := if d.Write? then 0 else if s.write.fifo != [] then s.starved + 1 else s.starved;
      Moved(s.(batching := 1, starved := starved), d, id)
  }

  lemma ChosenIsQueued(s: Sched, t: Tunables, now: int)
    requires Inv(s)
    ensures var c := Choose(s, t, now);
      if c.Nothing? then s.read.fifo == [] && s.write.fifo == []
      else InSort(s.Get(c.dir).sort, c.id) && InFifo(s.Get(c.dir).fifo, c.id)
  {
    hide InSort, Increasing, DistinctItems, DistinctWaits;
    var c := Choose(s, t, now);
    if c.Select? {
      var fifo := s.Get(c.dir).fifo;
      assert InFifo(fifo, fifo[0].id);
    }
    if c.Nothing? && s.write.next.Some? {
      NextQueued(s.write);
    }
    if c.Nothing? && s.read.next.Some? {
      NextQueued(s.read);
    }
  }

  lemma NextQueued(side: Side)
    requires SideOk(side) && side.next.Some?
    ensures side.fifo != []
  {
    assert InFifo(side.fifo, side.next.value);
  }

  lemma DispatchedInv(s: Sched, t: Tunables, now: int)
    requires Inv(s)
    ensures Inv(Dispatched(s, t, now))
    ensures Choose(s, t, now).Nothing? ==> Dispatched(s, t, now) == s
    ensures var c := Choose(s, t, now);
      c.Nothing? || (
        && Dispatched(s, t, now).Get(c.dir).fifo == Cut(s.Get(c.dir).fifo, Turn(s.Get(c.dir).fifo, c.id))
        && Dispatched(s, t, now).Get(c.dir.Other()).fifo == s.Get(c.dir.Other()).fifo)
  {
    hide InSort, InFifo, Increasing, DistinctItems, DistinctWaits, Turn, Cut, Moved, Place, SideBut;
    var c := Choose(s, t, now);
    match c
    case Nothing =>
    case Continue(d, id) => MovedInv(s.(batching := s.batching + 1), d, id, None);
    case Select(d, id) =>
      var starved := if d.Write? then 0 else if s.write.fifo != [] then s.starved + 1 else s.starved;
      MovedInv(s.(batching := 1, starved := starved), d, id, None);
  }
}

/** The deadline scheduler as it changes its lists. */
module DeadlineSched {
  import opened Options
  import opened DeadlineModel

  class Deadline {
    const tunables: Tunables
    var read: Side
    var write: Side
    var batching: nat
    var starved: nat
    // the requests moved to the dispatch queue so far
    var dispatched: seq<nat>

    function View(): Sched
      reads this
    {
      Sched(read, write, batching, starved)
    }

    constructor (tunables: Tunables)
      ensures View() == EMPTY && Inv(View()) && this.tunables == tunables && dispatched == []
    {
      this.tunables := tunables;
      read, write := Side([], [], None), Side([], [], None);
      batching, starved, dispatched := 0, 0, [];
    }

    method SetSide(d: Dir, s: Side)
      modifies this`read, this`write
      ensures View() == old(View()).Put(d, s)
    {
      if d.Read? {
        read := s;
      } else {
        write := s;
      }
    }

    /** elv_rb_add, on the sorted list: the request goes in, or the one at its sector is found. */
    method RbAdd(d: Dir, item: Item) returns (alias: Option<nat>)
      modifies this`read, this`write
      ensures alias == Alias(old(View()).Get(d).sort, item.pos)
      ensures alias.Some? ==> View() == old(View())
      ensures alias.None? ==>
        var side := old(View()).Get(d);
        View() == old(View()).Put(d, side.(sort := Insert(side.sort, Spot(side.sort, item.pos), item)))
    {
      var side := View().Get(d);
      var i := 0;
      while i < |side.sort| && side.sort[i].pos < item.pos
        invariant i <= |side.sort| && forall j :: 0 <= j < i ==> side.sort[j].pos < item.pos
      {
        i := i + 1;
      }
      SpotIs(side.sort, item.pos, i);
      if i < |side.sort| && side.sort[i].pos == item.pos {
        return Some(side.sort[i].id);
      }
      SetSide(d, side.(sort := Insert(side.sort, i, item)));
      return None;
    }

    /** deadline_del_rq_rb and the deadline list. */
    method RemoveRequest(d: Dir, id: nat)
      modifies this`read, this`write
      ensures View() == old(View()).Put(d, Removed(old(View()).Get(d), id))
      ensures var was := old(View()).Get(d);
        Increasing(was.sort) && DistinctItems(was.sort) ==> NextAfter(was, View().Get(d), id)
    {
      hide Increasing, DistinctItems, LeastAbove, Place, Turn, Cut, Latter;
      AfterRemoval(View().Get(d), id);
      var side := View().Get(d);
      if side.next == Some(id) {
        side := side.(next := Latter(side.sort, id));
      }
      var i, j := Place(side.sort, id), Turn(side.fifo, id);
      SetSide(d, side.(sort := Cut(side.sort, i), fifo := Cut(side.fifo, j)));
    }

    /** deadline_move_request */
    method MoveRequest(d: Dir, id: nat)
      modifies this`read, this`write, this`dispatched
      ensures View() == Moved(old(View()), d, id)
      ensures dispatched == old(dispatched) + [id]
      ensures Increasing(old(View()).Get(d).sort) && DistinctItems(old(View()).Get(d).sort) ==>
        OnlyNext(old(View()), View(), d, id)
    {
      hide Increasing, DistinctItems, LeastAbove, Place, Turn, Cut, Latter, NextAfter;
      AfterMove(View(), d, id);
      read, write := read.(next := None), write.(next := None);
      var side := View().Get(d);
      SetSide(d, side.(next := Latter(side.sort, id)));
      RemoveRequest(d, id);
      dispatched := dispatched + [id];
    }

    /** deadline_add_rq_rb: a request at the same sector is dispatched until there is room, which is
        at once. */
    method AddSorted(d: Dir, item: Item)
      requires Increasing(View().Get(d).sort) && DistinctItems(View().Get(d).sort)
      modifies this`read, this`write, this`dispatched
      ensures View() == Sorted(old(View()), d, item)
      ensures dispatched == old(dispatched) + Displaced(old(View()).Get(d).sort, item.pos)
      ensures forall x :: x in View().Get(d).sort <==> x == item || (x in old(View()).Get(d).sort && x.pos != item.pos)
    {
      hide Moved, Alias, Spot, Insert, Increasing, DistinctItems;
      SortedItems(View(), d, item);
      ghost var s := View();
      AliasOnce(s, d, item.pos);
      var alias := RbAdd(d, item);
      while alias.Some?
        invariant if alias.Some?
          then View() == s && dispatched == old(dispatched) && alias == Alias(s.Get(d).sort, item.pos)
          else View() == Sorted(s, d, item) && dispatched == old(dispatched) + Displaced(s.Get(d).sort, item.pos)
        decreases alias.Some?
      {
        MoveRequest(d, alias.value);
        alias := RbAdd(d, item);
      }
    }

    /** deadline_add_request */
    method AddRequest(d: Dir, item: Item, now: int)
      requires Inv(View()) && New(View(), d, item.id)
      modifies this`read, this`write, this`dispatched
      ensures View() == Added(old(View()), d, item, now + tunables.Expire(d)) && Inv(View())
      ensures dispatched == old(dispatched) + Displaced(old(View()).Get(d).sort, item.pos)
      ensures forall x :: x in View().Get(d).sort <==> x == item || (x in old(View()).Get(d).sort && x.pos != item.pos)
      ensures var fifo := View().Get(d).fifo; fifo != [] && fifo[|fifo| - 1] == Wait(item.id, now + tunables.Expire(d))
    {
      hide Sorted, Displaced, InSort, InFifo, Increasing, DistinctItems, DistinctWaits;
      AddedInv(View(), d, item, now + tunables.Expire(d));
      AddSorted(d, item);
      var side := View().Get(d);
      SetSide(d, side.(fifo := side.fifo + [Wait(item.id, now + tunables.Expire(d))]));
    }

    /** deadline_merged_request after a front merge. */
    method FrontMerged(d: Dir, item: Item)
      requires Inv(View()) && InSort(View().Get(d).sort, item.id)
      modifies this`read, this`write, this`dispatched
      ensures View() == Repositioned(old(View()), d, item) && Inv(View())
      ensures var sort := old(View()).Get(d).sort;
        dispatched == old(dispatched) + Displaced(Cut(sort, Place(sort, item.id)), item.pos)
      ensures forall x :: x in View().Get(d).sort <==>
        x == item || (x in old(View()).Get(d).sort && x.id != item.id && x.pos != item.pos)
    {
      hide Sorted, Displaced, InSort, InFifo, Increasing, DistinctItems, DistinctWaits, Place, Cut;
      RepositionedInv(View(), d, item);
      var side := View().Get(d);
      CutSort(side.sort, item.id);
      var p := WhereIs(side.sort, item.id);
      CutItems(side.sort, item.id, p);
      SetSide(d, side.(sort := Cut(side.sort, Place(side.sort, item.id))));
      AddSorted(d, item);
    }

    /** deadline_merged_requests: `next` has been appended to `req` and goes away. */
    method MergedRequests(d: Dir, req: nat, next: nat)
      requires Inv(View()) && InSort(View().Get(d).sort, req) && InSort(View().Get(d).sort, next) && req != next
      modifies this`read, this`write
      ensures View() == Merged(old(View()), d, req, next) && Inv(View())
    {
      hide InSort, InFifo, Increasing, DistinctItems, DistinctWaits, Removed, Insert, Inv;
      MergedInv(View(), d, req, next);
      var side := View().Get(d);
      var fifo := side.fifo;
      var i, j := Turn(fifo, req), Turn(fifo, next);
      MergedIs(View(), d, req, next);
      if fifo[j].deadline < fifo[i].deadline {
        // the request moves behind `next` and takes over its deadline
        fifo := Cut(fifo, i);
        var k := if i < j then j - 1 else j;
        fifo := Insert(fifo, k + 1, Wait(req, side.fifo[j].deadline));
        SetSide(d, side.(fifo := fifo));
      }
      RemoveRequest(d, next);
    }

    /** deadline_dispatch_requests: a batch goes on while it may, otherwise a direction and in it the
        first request of a new batch are chosen. */
    method DispatchRequests(now: int) returns (some: bool)
      requires Inv(View())
      modifies this
      ensures View() == Dispatched(old(View()), tunables, now) && Inv(View())
      ensures var c := Choose(old(View()), tunables, now);
        (some <==> !c.Nothing?) && dispatched == old(dispatched) + if some then [c.id] else []
      ensures some <==> old(read).fifo != [] || old(write).fifo != []
      ensures some ==> var c := Choose(old(View()), tunables, now); OnlyNext(old(View()), View(), c.dir, c.id)
    {
      hide InSort, InFifo, Increasing, DistinctItems, DistinctWaits, Moved, SideBut, OnlyNext;
      if !Choose(View(), tunables, now).Nothing? {
        AfterDispatch(View(), tunables, now);
      }
      ghost var s := View();
      DispatchedInv(s, tunables, now);
      ChosenIsQueued(s, tunables, now);
      Pending(s);
      var anyReads, anyWrites := read.fifo != [], write.fifo != [];
      var rq, dir := write.next, Write;
      if rq.None? {
        rq, dir := read.next, Read;
      }
      if rq.None? || batching >= tunables.fifoBatch {
        dir := Read;
        if anyReads {
          // the sector list of reads is not empty here
          var overdue := false;
          if anyWrites {
            overdue := starved >= tunables.writesStarved;
            starved := starved + 1;
          }
          if overdue {
            starved := 0;
            dir := Write;
          }
        } else if anyWrites {
          starved := 0;
          dir := Write;
        } else {
          return false;
        }
        var side := View().Get(dir);
        if now > side.fifo[0].deadline || side.next.None? {
          rq := Some(side.fifo[0].id);
        } else {
          rq := side.next;
        }
        batching := 0;
      }
      batching := batching + 1;
      MoveRequest(dir, rq.value);
      some := true;
    }
  }

  /** When a request at some sector goes, the next one changes only if it was that one, and then to the one with the
      least sector above. */
  ghost predicate NextAfter(s: Side, u: Side, id: nat) {
    forall p: nat :: Item(id, p) in s.sort ==>
      if s.next == Some(id) then LeastAbove(u.sort, p, u.next) else u.next == s.next
  }

  lemma AfterRemoval(s: Side, id: nat)
    ensures Increasing(s.sort) && DistinctItems(s.sort) ==> NextAfter(s, Removed(s, id), id)
  {
    hide Increasing, DistinctItems, Removed, LeastAbove;
    forall p: nat | Increasing(s.sort) && DistinctItems(s.sort) && Item(id, p) in s.sort
      ensures if s.next == Some(id) then LeastAbove(Removed(s, id).sort, p, Removed(s, id).next)
        else Removed(s, id).next == s.next
    {
      RemovedNext(s, id, p);
    }
  }

  /** When a request at some sector is dispatched, the next one is the one with the least sector above, and there is
      none in the other direction. */
  ghost predicate OnlyNext(s: Sched, u: Sched, d: Dir, id: nat) {
    && u.Get(d.Other()).next == None
    && forall p: nat :: Item(id, p) in s.Get(d).sort ==> LeastAbove(u.Get(d).sort, p, u.Get(d).next)
  }

  lemma AfterMove(s: Sched, d: Dir, id: nat)
    ensures Increasing(s.Get(d).sort) && DistinctItems(s.Get(d).sort) ==> OnlyNext(s, Moved(s, d, id), d, id)
  {
    hide Increasing, DistinctItems, LeastAbove, Removed;
    forall p: nat | Increasing(s.Get(d).sort) && DistinctItems(s.Get(d).sort) && Item(id, p) in s.Get(d).sort
      ensures LeastAbove(Moved(s, d, id).Get(d).sort, p, Moved(s, d, id).Get(d).next)
    {
      MovedNext(s, d, id, p);
    }
  }

  lemma AfterDispatch(s: Sched, t: Tunables, now: int)
    requires Inv(s) && !Choose(s, t, now).Nothing?
    ensures var c := Choose(s, t, now); OnlyNext(s, Dispatched(s, t, now), c.dir, c.id)
  {
    hide Increasing, DistinctItems, DistinctWaits, InSort, InFifo, LeastAbove, Moved, Choose;
    var c := Choose(s, t, now);
    assert Increasing(s.Get(c.dir).sort) && DistinctItems(s.Get(c.dir).sort);
    var starved := if c.dir.Write? then 0 else if s.write.fifo != [] then s.starved + 1 else s.starved;
    AfterMove(if c.Continue? then s.(batching := s.batching + 1) else s.(batching := 1, starved := starved), c.dir, c.id);
  }

  /** A request that is next is queued. */
  lemma Pending(s: Sched)
    requires Inv(s)
    ensures (s.read.next.Some? ==> s.read.fifo != []) && (s.write.next.Some? ==> s.write.fifo != [])
  {
    hide InSort, Increasing, DistinctItems, DistinctWaits;
    if s.read.next.Some? {
      NextQueued(s.read);
    }
    if s.write.next.Some? {
      NextQueued(s.write);
    }
  }

  /** The request a new one displaces. */
  function Displaced(sort: seq<Item>, pos: nat): seq<nat> {
    if Alias(sort, pos).Some? then [Alias(sort, pos).value] else []
  }

  lemma AliasOnce(s: Sched, d: Dir, pos: nat)
    requires Increasing(s.Get(d).sort) && DistinctItems(s.Get(d).sort)
    ensures var alias := Alias(s.Get(d).sort, pos);
      alias.Some? ==> Alias(Moved(s, d, alias.value).Get(d).sort, pos).None?
  {
    hide Increasing, DistinctItems, Spot;
    AliasGone(s.Get(d).sort, pos);
  }

  lemma MergedPlaces(side: Side, req: nat, next: nat)
    requires SideOk(side) && InSort(side.sort, req) && InSort(side.sort, next) && req != next
    ensures Turn(side.fifo, req) < |side.fifo| && Turn(side.fifo, next) < |side.fifo| && Turn(side.fifo, req) != Turn(side.fifo, next)
    ensures DistinctWaits(side.fifo)
  {
    hide Turn, InSort, Increasing, DistinctItems;
    assert InFifo(side.fifo, req) && InFifo(side.fifo, next);
  }

  /** The time list with entry `i` moved behind entry `j`, taking over its deadline. */
  function Behind(fifo: seq<Wait>, i: nat, j: nat): seq<Wait>
    requires i < |fifo| && j < |fifo| && i != j
  {
    Insert(Cut(fifo, i), (if i < j then j - 1 else j) + 1, Wait(fifo[i].id, fifo[j].deadline))
  }

  /** Moving a request behind another and removing that one is taking over its place. */
  lemma MoveBehind(fifo: seq<Wait>, i: nat, j: nat)
    requires DistinctWaits(fifo) && i < |fifo| && j < |fifo| && i != j
    ensures var moved := Behind(fifo, i, j);
      Cut(moved, Turn(moved, fifo[j].id)) == Cut(fifo[j := Wait(fifo[i].id, fifo[j].deadline)], i)
  {
    hide Turn, DistinctWaits;
    var k := if i < j then j - 1 else j;
    var moved := Behind(fifo, i, j);
    BehindAt(fifo, i, j);
    TurnIs(moved, fifo[j].id, k);
    CutBehind(fifo, i, j);
  }

  lemma InsertAt<T>(s: seq<T>, i: nat, x: T)
    requires i <= |s|
    ensures forall j :: 0 <= j < |s| + 1 ==> Insert(s, i, x)[j] == if j < i then s[j] else if j == i then x else s[j - 1]
  {
    var r := Insert(s, i, x);
    forall j | 0 <= j < |s| + 1
      ensures r[j] == if j < i then s[j] else if j == i then x else s[j - 1]
    {
      if j > i {
        assert r[j] == s[i..][j - i - 1];
      }
    }
  }

  /** The entries of the moved list. */
  lemma BehindIs(fifo: seq<Wait>, i: nat, j: nat)
    requires i < |fifo| && j < |fifo| && i != j
    ensures var k := if i < j then j - 1 else j;
      var r := Behind(fifo, i, j);
      && |r| == |fifo| && r[k] == fifo[j] && r[k + 1] == Wait(fifo[i].id, fifo[j].deadline)
      && (forall x :: 0 <= x < k ==> r[x] == fifo[if x < i then x else x + 1])
      && forall x :: k + 1 < x < |r| ==> r[x] == fifo[if x - 1 < i then x - 1 else x]
  {
    hide Cut, Insert;
    CutKeeps(fifo, i);
    InsertAt(Cut(fifo, i), (if i < j then j - 1 else j) + 1, Wait(fifo[i].id, fifo[j].deadline));
  }

  lemma BehindAt(fifo: seq<Wait>, i: nat, j: nat)
    requires DistinctWaits(fifo) && i < |fifo| && j < |fifo| && i != j
    ensures var k := if i < j then j - 1 else j;
      Behind(fifo, i, j)[k] == fifo[j] && forall x :: 0 <= x < k ==> Behind(fifo, i, j)[x].id != fifo[j].id
  {
    hide Behind;
    BehindIs(fifo, i, j);
  }

  lemma CutBehind(fifo: seq<Wait>, i: nat, j: nat)
    requires i < |fifo| && j < |fifo| && i != j
    ensures |Behind(fifo, i, j)| == |fifo|
    ensures Cut(Behind(fifo, i, j), if i < j then j - 1 else j) == Cut(fifo[j := Wait(fifo[i].id, fifo[j].deadline)], i)
  {
    hide Behind, Cut;
    var k := if i < j then j - 1 else j;
    BehindIs(fifo, i, j);
    CutKeeps(Behind(fifo, i, j), k);
    CutKeeps(fifo[j := Wait(fifo[i].id, fifo[j].deadline)], i);
  }

  /** Merging, as the code goes about it. */
  lemma MergedIs(s: Sched, d: Dir, req: nat, next: nat)
    requires Inv(s) && InSort(s.Get(d).sort, req) && InSort(s.Get(d).sort, next) && req != next
    ensures
      var side := s.Get(d);
      var i, j := Turn(side.fifo, req), Turn(side.fifo, next);
      && i < |side.fifo| && j < |side.fifo| && i != j && side.fifo[i].id == req && side.fifo[j].id == next
      && Merged(s, d, req, next) == s.Put(d, Removed(
           if side.fifo[j].deadline < side.fifo[i].deadline then side.(fifo := Behind(side.fifo, i, j)) else side, next))
  {
    hide InSort, InFifo, Increasing, DistinctItems, DistinctWaits, Behind, Cut, Latter, Place;
    var side := s.Get(d);
    MergedPlaces(side, req, next);
    MoveBehind(side.fifo, Turn(side.fifo, req), Turn(side.fifo, next));
  }

  lemma SpotIs(sort: seq<Item>, pos: nat, i: nat)
    requires i <= |sort| && (forall j :: 0 <= j < i ==> sort[j].pos < pos) && (i < |sort| ==> pos <= sort[i].pos)
    ensures Spot(sort, pos) == i
  {}
}

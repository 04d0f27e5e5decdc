/** Batches of the deadline scheduler go up in sectors. */
module DeadlineBatch {
  import opened Options
  import opened DeadlineModel
  import opened DeadlineRuns

  /** The direction and the sector of the last request that was moved to the dispatch queue. */
  datatype Last = Never | At(dir: Dir, pos: nat)

  /** The next request is of the direction of the last one moved, and above it. */
  ghost predicate Ahead(s: Sched, last: Last) {
    forall d: Dir :: s.Get(d).next.Some? ==> last.At? && last.dir == d && Above(s.Get(d), last.pos)
  }

  ghost predicate Above(side: Side, p: nat) {
    side.next.Some? ==> exists q: nat :: Item(side.next.value, q) in side.sort && p < q
  }

  lemma LeastIsAbove(side: Side, p: nat)
    requires LeastAbove(side.sort, p, side.next)
    ensures Above(side, p)
  {}

  /** The request that an arrival or a front merge finds at its sector. */
  function Found(s: Sched, e: Event): Option<nat> {
    match e
    case Add(d, item, _) => Alias(s.Get(d).sort, item.pos)
    case Front(d, item, _) => Alias(Cut(s.Get(d).sort, Place(s.Get(d).sort, item.id)), item.pos)
    case _ => None
  }

  ghost function PosOf(sort: seq<Item>, id: nat): nat {
    var i := Place(sort, id);
    if i < |sort| then sort[i].pos else 0
  }

  ghost function NextLast(s: Sched, t: Tunables, e: Event, last: Last): Last {
    match e
    case Add(d, item, _) => if Found(s, e).Some? then At(d, item.pos) else last
    case Front(d, item, _) => if Found(s, e).Some? then At(d, item.pos) else last
    case Join(_, _, _, _) => last
    case Ask(now) =>
      var c := Choose(s, t, now);
      if c.Nothing? then last else At(c.dir, PosOf(s.Get(c.dir).sort, c.id))
  }

  /** A front merge makes the next request start at or below the last one moved. */
  ghost predicate FallsBack(s: Sched, e: Event, last: Last) {
    && e.Front? && s.Get(e.dir).next == Some(e.item.id) && Found(s, e).None?
    && last.At? && e.item.pos <= last.pos
  }

  /** Sorting a request in: the next request is above the one displaced, or as it was. */
  lemma SortedNext(s: Sched, d: Dir, item: Item)
    requires Increasing(s.Get(d).sort) && DistinctItems(s.Get(d).sort)
    ensures var u := Sorted(s, d, item); var alias := Alias(s.Get(d).sort, item.pos);
      && (alias.Some? ==> Above(u.Get(d), item.pos) && u.Get(d.Other()).next == None)
      && (alias.None? ==> u.Get(d.Other()) == s.Get(d.Other()) && u.Get(d).next == s.Get(d).next)
      && (alias.None? ==> forall x :: x in u.Get(d).sort <==> x == item || x in s.Get(d).sort)
  {
    hide Alias, Spot, Increasing, DistinctItems, Moved, LeastAbove, Cut, Place;
    var alias := Alias(s.Get(d).sort, item.pos);
    AliasItem(s.Get(d).sort, item.pos);
    var v := if alias.Some? then Moved(s, d, alias.value) else s;
    InsertItems(v.Get(d).sort, Spot(v.Get(d).sort, item.pos), item);
    if alias.Some? {
      MovedNext(s, d, alias.value, item.pos);
      LeastIsAbove(v.Get(d), item.pos);
    }
  }

  lemma AddAhead(s: Sched, t: Tunables, e: Event, last: Last)
    requires Inv(s) && Enabled(s, e) && e.Add? && Ahead(s, last)
    ensures Ahead(Step(s, t, e), NextLast(s, t, e, last))
  {
    hide Alias, Sorted, InSort, InFifo, Increasing, DistinctItems, DistinctWaits, Above;
    SortedNext(s, e.dir, e.item);
    var v := Sorted(s, e.dir, e.item);
    var u := Step(s, t, e);
    assert u.Get(e.dir.Other()) == v.Get(e.dir.Other());
    assert u.Get(e.dir).sort == v.Get(e.dir).sort && u.Get(e.dir).next == v.Get(e.dir).next;
    if Found(s, e).None? {
      StillAbove(s, e, u, last);
    } else {
      SameAbove(v.Get(e.dir), u.Get(e.dir), e.item.pos);
      OneAhead(u, e.dir, e.item.pos);
    }
  }

  lemma SameAbove(side: Side, u: Side, p: nat)
    requires Above(side, p) && side.next == u.next && forall x :: x in side.sort ==> x in u.sort
    ensures Above(u, p)
  {}

  lemma OneAhead(s: Sched, d: Dir, p: nat)
    requires Above(s.Get(d), p) && s.Get(d.Other()).next == None
    ensures Ahead(s, At(d, p))
  {
    forall x: Dir | s.Get(x).next.Some?
      ensures x == d
    {
      assert x == d || x == d.Other();
    }
  }

  lemma StillAbove(s: Sched, e: Event, u: Sched, last: Last)
    requires e.Add? && Ahead(s, last) && u.Get(e.dir.Other()) == s.Get(e.dir.Other()) && u.Get(e.dir).next == s.Get(e.dir).next
    requires forall x :: x in s.Get(e.dir).sort ==> x in u.Get(e.dir).sort
    ensures Ahead(u, last)
  {
    forall d: Dir | u.Get(d).next.Some?
      ensures last.At? && last.dir == d && Above(u.Get(d), last.pos)
    {
      assert s.Get(d).next.Some?;
    }
  }

  lemma FrontAheadIff(s: Sched, t: Tunables, e: Event, last: Last)
    requires Inv(s) && Enabled(s, e) && e.Front? && Ahead(s, last)
    ensures Ahead(Step(s, t, e), NextLast(s, t, e, last)) <==> !FallsBack(s, e, last)
  {
    hide Alias, Sorted, InFifo, Increasing, DistinctItems, DistinctWaits, Above, Cut, Place;
    var side := s.Get(e.dir);
    var p := WhereIs(side.sort, e.item.id);
    var cut := side.(sort := Cut(side.sort, Place(side.sort, e.item.id)));
    var v := s.Put(e.dir, cut);
    CutSort(side.sort, e.item.id);
    CutItems(side.sort, e.item.id, p);
    SortedNext(v, e.dir, e.item);
    var u := Sorted(v, e.dir, e.item);
    assert Step(s, t, e) == u;
    if Found(s, e).Some? {
      OneAhead(u, e.dir, e.item.pos);
    } else if side.next.Some? {
      FrontAbove(side, u.Get(e.dir), e.item, last.pos);
      assert u.Get(e.dir.Other()).next == None;
      AheadIs(u, e.dir, last);
    } else {
      assert Ahead(u, last) by {
        forall d: Dir | u.Get(d).next.Some?
          ensures last.At? && last.dir == d && Above(u.Get(d), last.pos)
        {
          assert d == e.dir.Other() && s.Get(d).next.Some?;
        }
      }
    }
  }

  lemma AheadIs(s: Sched, d: Dir, last: Last)
    requires s.Get(d.Other()).next == None && s.Get(d).next.Some?
    ensures Ahead(s, last) <==> last.At? && last.dir == d && Above(s.Get(d), last.pos)
  {
    if last.At? && last.dir == d && Above(s.Get(d), last.pos) {
      OneAhead(s, d, last.pos);
    }
  }

  lemma FrontAbove(side: Side, u: Side, item: Item, p: nat)
    requires side.next.Some? && Above(side, p) && u.next == side.next
    requires forall x :: x in u.sort <==> x == item || (x in side.sort && x.id != item.id)
    ensures Above(u, p) <==> !(side.next.value == item.id && item.pos <= p)
  {
    if side.next.value == item.id {
      assert forall q :: Item(item.id, q) in u.sort ==> q == item.pos;
      assert item == Item(item.id, item.pos);
    }
  }

  lemma JoinAhead(s: Sched, t: Tunables, e: Event, last: Last)
    requires Inv(s) && Enabled(s, e) && e.Join? && Ahead(s, last)
    ensures Ahead(Step(s, t, e), last)
  {
    hide InFifo, Increasing, DistinctItems, DistinctWaits, Cut, Place, Latter, MergedFifo, LeastAbove;
    var side := s.Get(e.dir);
    var p := WhereIs(side.sort, e.next);
    var u := Removed(side, e.next);
    RemovedNext(side, e.next, p);
    CutItems(side.sort, e.next, p);
    OnlyAt(side.sort, e.next, p);
    var v := Step(s, t, e);
    assert v.Get(e.dir).sort == u.sort && v.Get(e.dir).next == u.next && v.Get(e.dir.Other()) == s.Get(e.dir.Other());
    if side.next == Some(e.next) {
      assert last.At? && last.dir == e.dir && Above(side, last.pos) && last.pos < p;
      LeastIsAbove(u, p);
    }
    forall d: Dir | v.Get(d).next.Some?
      ensures last.At? && last.dir == d && Above(v.Get(d), last.pos)
    {
      if d == e.dir {
        assert s.Get(d).next.Some?;
      } else {
        assert v.Get(d) == s.Get(d);
      }
    }
  }

  lemma AskAhead(s: Sched, t: Tunables, e: Event, last: Last)
    requires Inv(s) && e.Ask? && (Choose(s, t, e.now).Nothing? ==> Ahead(s, last))
    ensures Ahead(Step(s, t, e), NextLast(s, t, e, last))
  {
    hide InFifo, Increasing, DistinctItems, DistinctWaits, Cut, Latter, Choose, Moved, LeastAbove, Above, Place;
    var c := Choose(s, t, e.now);
    if !c.Nothing? {
      ChosenIsQueued(s, t, e.now);
      var p := WhereIs(s.Get(c.dir).sort, c.id);
      var i := PlaceOf(s.Get(c.dir).sort, c.id, p);
      var v := Counted(s, t, e.now);
      MovedNext(v, c.dir, c.id, p);
      LeastIsAbove(Moved(v, c.dir, c.id).Get(c.dir), p);
    }
  }

  /** The counters change, and then the request is moved. */
  lemma Counted(s: Sched, t: Tunables, now: int) returns (v: Sched)
    requires !Choose(s, t, now).Nothing?
    ensures v.read == s.read && v.write == s.write
    ensures Dispatched(s, t, now) == Moved(v, Choose(s, t, now).dir, Choose(s, t, now).id)
  {
    hide Choose, Moved;
    v := match Choose(s, t, now)
      case Continue(d, id) => s.(batching := s.batching + 1)
      case Select(d, id) =>
        s.(batching := 1, starved := if d.Write? then 0 else if s.write.fifo != [] then s.starved + 1 else s.starved)
      case Nothing => s;
  }

  /** Every event keeps the next request above the last one moved, exactly if it is not a front merge that falls
      back. */
  lemma StepAheadIff(s: Sched, t: Tunables, e: Event, last: Last)
    requires Inv(s) && Enabled(s, e) && Ahead(s, last)
    ensures Ahead(Step(s, t, e), NextLast(s, t, e, last)) <==> !FallsBack(s, e, last)
  {
    hide Inv, Step, Enabled, Ahead, NextLast, Found, Choose;
    match e
    case Add(_, _, _) => AddAhead(s, t, e, last);
    case Front(_, _, _) => FrontAheadIff(s, t, e, last);
    case Join(_, _, _, _) => JoinAhead(s, t, e, last); JoinLast(s, t, e, last);
    case Ask(_) => AskAhead(s, t, e, last);
  }

  lemma JoinLast(s: Sched, t: Tunables, e: Event, last: Last)
    requires e.Join?
    ensures NextLast(s, t, e, last) == last
  {}

  // Batches

  ghost predicate GoesUp(s: Sched, c: Choice, last: Last)
    requires !c.Nothing?
  {
    last.At? && last.dir == c.dir && InSort(s.Get(c.dir).sort, c.id) && last.pos < PosOf(s.Get(c.dir).sort, c.id)
  }

  /** Whenever the driver asks, if the batch goes on it goes up: its next request has the direction of the one moved
      before it, and a higher sector. */
  ghost predicate Upward(s: Sched, t: Tunables, last: Last) {
    forall now: int :: Choose(s, t, now).Continue? ==> GoesUp(s, Choose(s, t, now), last)
  }

  lemma PosIs(side: Side, id: nat)
    requires DistinctItems(side.sort) && InSort(side.sort, id)
    ensures forall q: nat :: Item(id, q) in side.sort <==> q == PosOf(side.sort, id)
  {
    hide Place, DistinctItems;
    var q := WhereIs(side.sort, id);
    var i := PlaceOf(side.sort, id, q);
    OnlyAt(side.sort, id, q);
  }

  /** A batch that can go on goes up exactly if the next request is ahead. */
  lemma UpwardIff(s: Sched, t: Tunables, last: Last)
    requires Inv(s)
    ensures Upward(s, t, last) <==> s.batching >= t.fifoBatch || Ahead(s, last)
  {
    hide InFifo, Increasing, DistinctItems, DistinctWaits, Place, InSort, PosOf;
    if s.batching < t.fifoBatch {
      var c := Choose(s, t, 0);
      if s.write.next.Some? || s.read.next.Some? {
        assert c.Continue? && s.Get(c.dir).next == Some(c.id) && s.Get(c.dir.Other()).next == None;
        PosIs(s.Get(c.dir), c.id);
        AheadIs(s, c.dir, last);
        assert Item(c.id, PosOf(s.Get(c.dir).sort, c.id)) in s.Get(c.dir).sort;
        assert forall now: int :: Choose(s, t, now) == c;
      } else {
        assert forall d: Dir :: s.Get(d).next == None;
      }
    }
  }

  /** A front merge breaks a batch: it makes the next request of a batch that can go on start at or below the last
      one moved. */
  ghost predicate Breaks(s: Sched, t: Tunables, e: Event, last: Last) {
    FallsBack(s, e, last) && s.batching < t.fifoBatch
  }

  lemma StepUpwardIff(s: Sched, t: Tunables, e: Event, last: Last)
    requires Inv(s) && Enabled(s, e) && Upward(s, t, last)
    ensures Upward(Step(s, t, e), t, NextLast(s, t, e, last)) <==> !Breaks(s, t, e, last)
  {
    hide Inv, Step, Enabled, Ahead, NextLast, Found, Choose, Upward, FallsBack;
    var u, l := Step(s, t, e), NextLast(s, t, e, last);
    StepInv(s, t, e);
    UpwardIff(s, t, last);
    UpwardIff(u, t, l);
    if e.Ask? { NotFalling(s, e, last); }
    if Ahead(s, last) {
      StepAheadIff(s, t, e, last);
    } else if e.Ask? {
      if Choose(s, t, e.now).Nothing? {
        Same(s, t, e, last);
      } else {
        AskAhead(s, t, e, last);
      }
    }
  }

  lemma NotFalling(s: Sched, e: Event, last: Last)
    requires e.Ask?
    ensures !FallsBack(s, e, last)
  {}

  lemma Same(s: Sched, t: Tunables, e: Event, last: Last)
    requires e.Ask? && Choose(s, t, e.now).Nothing?
    ensures Step(s, t, e) == s && NextLast(s, t, e, last) == last
  {}

  ghost predicate Possible(s: Sched, t: Tunables, es: seq<Event>)
    decreases |es|
  {
    es == [] || (Enabled(s, es[0]) && Possible(Step(s, t, es[0]), t, es[1..]))
  }

  ghost predicate NeverBreaks(s: Sched, t: Tunables, es: seq<Event>, last: Last)
    decreases |es|
  {
    es == [] || (!Breaks(s, t, es[0], last) && NeverBreaks(Step(s, t, es[0]), t, es[1..], NextLast(s, t, es[0], last)))
  }

  ghost predicate AlwaysUpward(s: Sched, t: Tunables, es: seq<Event>, last: Last)
    decreases |es|
  {
    Upward(s, t, last) && (es == [] || AlwaysUpward(Step(s, t, es[0]), t, es[1..], NextLast(s, t, es[0], last)))
  }

  /** Every request with which a batch of the run goes on has the direction of the request moved before it, and a
      higher sector. */
  ghost predicate Ascends(s: Sched, t: Tunables, es: seq<Event>, last: Last)
    decreases |es|
  {
    es == [] || (
      && (es[0].Ask? && Choose(s, t, es[0].now).Continue? ==> GoesUp(s, Choose(s, t, es[0].now), last))
      && Ascends(Step(s, t, es[0]), t, es[1..], NextLast(s, t, es[0], last)))
  }

  /** Over every run, with arrivals, removals and merges in between, a batch that goes on goes up, at every moment at
      which the driver might ask, exactly if no front merge breaks a batch. */
  lemma {:induction false} RunUpwardIff(s: Sched, t: Tunables, es: seq<Event>, last: Last)
    requires Inv(s) && Possible(s, t, es) && Upward(s, t, last)
    ensures AlwaysUpward(s, t, es, last) <==> NeverBreaks(s, t, es, last)
    decreases |es|
  {
    hide Inv, Step, Enabled, Upward, NextLast, Breaks;
    if es != [] {
      var u, l := Step(s, t, es[0]), NextLast(s, t, es[0], last);
      StepInv(s, t, es[0]);
      StepUpwardIff(s, t, es[0], last);
      if Upward(u, t, l) {
        RunUpwardIff(u, t, es[1..], l);
      } else {
        UpwardFirst(u, t, es[1..], l);
      }
    }
  }

  lemma UpwardFirst(s: Sched, t: Tunables, es: seq<Event>, last: Last)
    ensures AlwaysUpward(s, t, es, last) ==> Upward(s, t, last)
  {}

  /** So the sectors of one batch increase strictly. */
  lemma {:induction false} RunAscends(s: Sched, t: Tunables, es: seq<Event>, last: Last)
    requires AlwaysUpward(s, t, es, last)
    ensures Ascends(s, t, es, last)
    decreases |es|
  {
    hide Step, NextLast, Choose, GoesUp;
    if es != [] {
      RunAscends(Step(s, t, es[0]), t, es[1..], NextLast(s, t, es[0], last));
    }
  }

  /** A new batch starts at the next request if there is one and the first deadline has not passed; otherwise with
      the request that has waited longest. */
  lemma NewBatch(s: Sched, t: Tunables, now: int, last: Last)
    requires Inv(s) && Choose(s, t, now).Select?
    ensures var c := Choose(s, t, now); var side := s.Get(c.dir);
      && side.fifo != []
      && (side.next.Some? && now <= side.fifo[0].deadline ==> side.next == Some(c.id) && (Ahead(s, last) ==> GoesUp(s, c, last)))
      && (side.next.None? || now > side.fifo[0].deadline ==> side.fifo[0].id == c.id)
  {
    hide InFifo, Increasing, DistinctItems, DistinctWaits, Place, InSort, PosOf;
    var c := Choose(s, t, now);
    var side := s.Get(c.dir);
    if side.next.Some? && now <= side.fifo[0].deadline && Ahead(s, last) {
      PosIs(side, c.id);
    }
  }

  // How long a batch is, and which direction is next

  function Chosen(s: Sched, t: Tunables, e: Event): Choice {
    if e.Ask? then Choose(s, t, e.now) else Nothing
  }

  /** A run in which no new batch starts. */
  ghost predicate SameBatch(s: Sched, t: Tunables, es: seq<Event>)
    decreases |es|
  {
    es == [] || (Enabled(s, es[0]) && !Chosen(s, t, es[0]).Select? && SameBatch(Step(s, t, es[0]), t, es[1..]))
  }

  /** The requests dispatched in a run. */
  function Gone(s: Sched, t: Tunables, es: seq<Event>): nat
    decreases |es|
  {
    if es == [] then 0
    else (if Chosen(s, t, es[0]).Nothing? then 0 else 1) + Gone(Step(s, t, es[0]), t, es[1..])
  }

  lemma DispatchCounts(s: Sched, t: Tunables, e: Event)
    requires Inv(s) && Enabled(s, e)
    ensures var c := Chosen(s, t, e); var u := Step(s, t, e);
      && u.batching == (if c.Nothing? then s.batching else if c.Continue? then s.batching + 1 else 1)
      && u.starved == if !c.Select? then s.starved
                      else if c.dir.Write? then 0
                      else if s.write.fifo != [] then s.starved + 1 else s.starved
  {
    hide Inv, Removed, Latter;
    StepInv(s, t, e);
  }

  /** A batch has at most as many requests as it may: one, and those that go on with it. */
  lemma {:induction false} BatchBound(s: Sched, t: Tunables, es: seq<Event>)
    requires Inv(s) && SameBatch(s, t, es)
    ensures Gone(s, t, es) <= if s.batching < t.fifoBatch then t.fifoBatch - s.batching else 0
    decreases |es|
  {
    hide Inv, Step, Enabled;
    if es != [] {
      StepInv(s, t, es[0]);
      DispatchCounts(s, t, es[0]);
      BatchBound(Step(s, t, es[0]), t, es[1..]);
    }
  }

  /** The new batches of reads for which writes had to wait, since the last new batch of writes. */
  function Passed(s: Sched, t: Tunables, es: seq<Event>, before: nat): nat
    decreases |es|
  {
    if es == [] then before
    else
      var c := Chosen(s, t, es[0]);
      var n := if c.Select? && c.dir.Write? then 0 else if c.Select? && s.write.fifo != [] then before + 1 else before;
      Passed(Step(s, t, es[0]), t, es[1..], n)
  }

  ghost function After(s: Sched, t: Tunables, es: seq<Event>): Sched
    decreases |es|
  {
    if es == [] then s else After(Step(s, t, es[0]), t, es[1..])
  }

  lemma {:induction false} PassedIsStarved(s: Sched, t: Tunables, es: seq<Event>)
    requires Inv(s) && Possible(s, t, es)
    ensures After(s, t, es).starved == Passed(s, t, es, s.starved) && Inv(After(s, t, es))
    decreases |es|
  {
    hide Inv, Step, Enabled;
    if es != [] {
      StepInv(s, t, es[0]);
      DispatchCounts(s, t, es[0]);
      PassedIsStarved(Step(s, t, es[0]), t, es[1..]);
    }
  }

  /** After every run: a new batch starts exactly if something is queued and no batch can go on, and it is of writes
      exactly if writes wait and there are no reads or enough batches of reads have passed them. */
  lemma NewBatchIff(t: Tunables, es: seq<Event>, now: int)
    requires Possible(EMPTY, t, es)
    ensures var s := After(EMPTY, t, es); var c := Choose(s, t, now);
      && (c.Select? <==>
          (s.read.fifo != [] || s.write.fifo != [])
          && ((s.read.next.None? && s.write.next.None?) || s.batching >= t.fifoBatch))
      && (c.Select? ==> (c.dir.Write? <==>
          s.write.fifo != [] && (s.read.fifo == [] || Passed(EMPTY, t, es, 0) >= t.writesStarved)))
  {
    hide After, Passed, Possible;
    EmptyInv();
    PassedIsStarved(EMPTY, t, es);
  }

  lemma EmptyInv()
    ensures Inv(EMPTY)
  {
    assert forall id: nat :: !InSort([], id) && !InFifo([], id);
  }

  // A front merge that falls back

  const T16 := Tunables(500, 5000, 16, 2)

  /** A read at sector 30 is left of one batch. */
  const ONE_LEFT := Sched(Side([Item(2, 30)], [Wait(2, 500)], Some(2)), Side([], [], None), 1, 0)

  lemma OneLeftReached()
    ensures var es := [Add(Read, Item(1, 20), 0), Add(Read, Item(2, 30), 0), Ask(0)];
      Step(Step(Step(EMPTY, T16, es[0]), T16, es[1]), T16, es[2]) == ONE_LEFT
  {
    var side := Side([Item(1, 20)], [Wait(1, 500)], None);
    var one := EMPTY.(read := side);
    assert Alias([], 20) == None && Spot([], 20) == 0;
    assert Step(EMPTY, T16, Add(Read, Item(1, 20), 0)) == one;
    SecondAdded();
    FirstTaken();
  }

  const TWO := EMPTY.(read := Side([Item(1, 20), Item(2, 30)], [Wait(1, 500), Wait(2, 500)], None))

  lemma SecondAdded()
    ensures Step(EMPTY.(read := Side([Item(1, 20)], [Wait(1, 500)], None)), T16, Add(Read, Item(2, 30), 0)) == TWO
  {
    var sort := [Item(1, 20)];
    assert sort[1..] == [] && Spot(sort, 30) == 1 && Alias(sort, 30) == None;
    assert Insert(sort, 1, Item(2, 30)) == [Item(1, 20), Item(2, 30)];
  }

  lemma FirstTaken()
    ensures Step(TWO, T16, Ask(0)) == ONE_LEFT
  {
    var sort, fifo := TWO.read.sort, TWO.read.fifo;
    assert Place(sort, 1) == 0 && Turn(fifo, 1) == 0 && Cut(sort, 0) == [Item(2, 30)] && Cut(fifo, 0) == [Wait(2, 500)];
    assert Choose(TWO, T16, 0) == Select(Read, 1);
  }

  /** The next read grows at its front to start at sector 10. */
  lemma NextGrows()
    ensures var e := Front(Read, Item(2, 10), 1);
      && Enabled(ONE_LEFT, e) && NextLast(ONE_LEFT, T16, e, At(Read, 20)) == At(Read, 20)
      && Step(ONE_LEFT, T16, e) == ONE_LEFT.(read := ONE_LEFT.read.(sort := [Item(2, 10)]))
  {
    var sort := ONE_LEFT.read.sort;
    assert sort[0].id == 2;
    assert Place(sort, 2) == 0 && Cut(sort, 0) == [] && Alias([], 10) == None && Spot([], 10) == 0;
  }

  lemma OneLeftInv()
    ensures Inv(ONE_LEFT) && Ahead(ONE_LEFT, At(Read, 20))
  {
    var r := ONE_LEFT.read;
    assert forall id: nat :: InSort(r.sort, id) <==> id == 2 by { assert r.sort[0].id == 2; }
    assert forall id: nat :: InFifo(r.fifo, id) <==> id == 2 by { assert r.fifo[0].id == 2; }
    assert Item(2, 30) in r.sort;
  }

  /** A batch that goes back: reads at sectors 20 and 30, the first one dispatched, and then the second one grows. */
  lemma FrontCanFallBack()
    ensures var es := [Front(Read, Item(2, 10), 1), Ask(1)];
      && Inv(ONE_LEFT) && Upward(ONE_LEFT, T16, At(Read, 20)) && Possible(ONE_LEFT, T16, es)
      && !Ascends(ONE_LEFT, T16, es, At(Read, 20))
  {
    hide Step, Enabled, NextLast, Inv, Ahead, Upward;
    OneLeftInv();
    UpwardIff(ONE_LEFT, T16, At(Read, 20));
    NextGrows();
    var e := Front(Read, Item(2, 10), 1);
    var u := Step(ONE_LEFT, T16, e);
    var es := [e, Ask(1)];
    assert es[1..] == [Ask(1)] && [Ask(1)][1..] == [];
    assert Choose(u, T16, 1) == Continue(Read, 2);
    assert Place(u.read.sort, 2) == 0;
    assert !Ascends(u, T16, [Ask(1)], At(Read, 20));
    AskEnabled(u, 1);
  }

  lemma AskEnabled(s: Sched, now: int)
    ensures Enabled(s, Ask(now))
  {}
}

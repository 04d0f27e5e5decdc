/** When later requests wait for a barrier, whatever the colours: what is known of the queue as long as the
    first request that can come behind a barrier has the other colour. */
module BarrierOrder {
  import opened Options
  import opened BarrierModel
  import opened BarrierSafety
  import opened BarrierCore

  ghost predicate HasLater(q: seq<Rq>, n: int) { exists x :: 0 <= x < |q| && Later(q[x], n) }

  /** One of them has a stop flag behind it, or itself. */
  ghost predicate Closed(q: seq<Rq>, n: int) {
    exists x, y :: 0 <= x <= y < |q| && Later(q[x], n) && q[y].Stop()
  }

  /** Barriers carry a stop flag and come in order; what was queued later is behind. */
  ghost predicate Placed(q: seq<Rq>, lo: nat, hi: nat) {
    && (forall x :: 0 <= x < |q| && q[x].Normal? && q[x].fs ==>
      q[x].epoch <= hi && (q[x].barrier ==> q[x].stop && lo <= q[x].epoch < hi))
    && (forall x, y :: 0 <= x < y < |q| && q[y].Barrier() && q[x].Normal? && q[x].fs ==>
      q[x].epoch <= q[y].epoch && (q[x].barrier ==> q[x].epoch < q[y].epoch))
  }

  ghost predicate Guarded(s: State) {
    forall n, c {:trigger Pending(s, n, c)} :: Pending(s, n, c) ==> Blocked(s.queue, n, c)
  }

  /** The last barrier queued has the colour `last`. */
  ghost predicate LastIs(s: State, last: bool) {
    forall n, c :: Pending(s, n, c) && n == s.added - 1 ==> c == last
  }

  ghost predicate Elsewhere(s: State) {
    && (forall r :: r in s.sorted ==> Plain(r) && r.epoch == s.added && !r.stop)
    && (forall r :: r in s.issued && r.Normal? ==> Plain(r) && r.epoch <= s.completed)
    && (s.Active() ==> IsBarrier(s.orig.value, s.completed) && s.completed < s.added)
    && s.completed <= s.added
  }

  /** Which requests can come first behind the last barrier: in phase 0 none has been queued since, in phase 1
      only ones that the scheduler may still have, and in phase 2 one of them is in the queue for good. */
  ghost predicate Phased(s: State, phase: nat, last: bool) {
    s.completed < s.added ==>
      && (phase <= 1 ==> forall r :: r in s.sorted && r.Normal? ==> r.color != last)
      && (phase == 1 ==> HasLater(s.queue, s.added - 1) || s.sorted != multiset{})
      && (phase >= 2 ==> Closed(s.queue, s.added - 1))
  }

  ghost predicate Ranks(s: State) {
    && Placed(s.queue, FirstWaiting(s), s.added) && Waiting(s.queue, FirstWaiting(s), s.added)
    && Elsewhere(s)
  }

  ghost predicate Held(s: State, phase: nat, last: bool) {
    Ranks(s) && Guarded(s) && LastIs(s, last) && Phased(s, phase, last)
  }

  /** Can this be the first file system request behind the last barrier? */
  predicate Exposed(phase: nat, e: Event) { FsInsertion(e) && (phase == 0 || (phase == 1 && e.AddSorted?)) }

  predicate FsBarrier(e: Event) { e.AddBack? && e.fs && e.barrier }

  function NextPhase(phase: nat, e: Event): nat {
    if FsBarrier(e) then 0
    else if e.AddBack? then (if phase == 0 && !e.fs then 0 else 2)
    else if e.AddSorted? && phase == 0 then 1
    else phase
  }

  function NextLast(s: State, last: bool, e: Event): bool { if FsBarrier(e) then s.ordcolor else last }

  lemma InitialHeld(last: bool)
    ensures Held(INITIAL, 0, last)
  {}

  // Insertions into the queue

  lemma BlockedInsert(q: seq<Rq>, j: nat, r: Rq, n: int, c: bool)
    requires Blocked(q, n, c) && j <= |q|
    requires !Later(r, n) || r.color != c || HasLater(q[..j], n)
    ensures Blocked(Insert(q, j, r), n, c)
  {
    var p := Insert(q, j, r);
    forall x | FirstLater(p, n, x)
      ensures p[x].color != c
    {
      if x == j {
        assert forall y :: 0 <= y < j ==> q[..j][y] == p[y];
      } else {
        var x' := if x < j then x else x - 1;
        assert p[x] == q[x'];
        assert forall y :: 0 <= y < x' ==> q[y] == p[if y < j then y else y + 1];
        assert FirstLater(q, n, x');
      }
    }
  }

  lemma PlacedInsert(q: seq<Rq>, j: nat, r: Rq, lo: nat, hi: nat)
    requires Placed(q, lo, hi) && j <= |q| && !r.Barrier() && !Later(r, hi)
    requires forall y :: j <= y < |q| && q[y].Barrier() ==> !Later(r, q[y].epoch)
    ensures Placed(Insert(q, j, r), lo, hi)
  {
    var p := Insert(q, j, r);
    assert forall x :: 0 <= x < |p| && x != j ==> p[x] == q[if x < j then x else x - 1];
    assert p[j] == r;
  }

  lemma WaitingInsert(q: seq<Rq>, j: nat, r: Rq, lo: nat, hi: nat)
    requires Waiting(q, lo, hi) && j <= |q|
    ensures Waiting(Insert(q, j, r), lo, hi)
  {
    forall e | lo <= e < hi
      ensures HasBarrier(Insert(q, j, r), e)
    {
      assert HasBarrier(q, e);
      var i :| 0 <= i < |q| && IsBarrier(q[i], e);
      assert Insert(q, j, r)[if i < j then i else i + 1] == q[i];
    }
  }

  lemma LaterInsert(q: seq<Rq>, j: nat, r: Rq, n: int)
    requires j <= |q|
    ensures HasLater(q, n) ==> HasLater(Insert(q, j, r), n)
    ensures Closed(q, n) ==> Closed(Insert(q, j, r), n)
  {
    var p := Insert(q, j, r);
    assert forall x :: 0 <= x < |q| ==> p[if x < j then x else x + 1] == q[x];
    if Closed(q, n) {
      var x, y :| 0 <= x <= y < |q| && Later(q[x], n) && q[y].Stop();
      var x', y' := if x < j then x else x + 1, if y < j then y else y + 1;
      assert Later(p[x'], n) && p[y'].Stop();
    }
  }

  lemma PendingInsert(s: State, t: State, j: nat, r: Rq)
    requires j <= |s.queue| && t.queue == Insert(s.queue, j, r) && t.orig == s.orig
    ensures forall n, c :: Pending(t, n, c) <==> Pending(s, n, c) || IsPending(r, n, c)
  {
    hide HasPending, IsPending, Insert;
    forall n, c
      ensures Pending(t, n, c) <==> Pending(s, n, c) || IsPending(r, n, c)
    {
      HasPendingInsert(s.queue, j, r, n, c);
    }
  }

  lemma HasPendingInsert(q: seq<Rq>, j: nat, r: Rq, n: int, c: bool)
    requires j <= |q|
    ensures HasPending(Insert(q, j, r), n, c) <==> HasPending(q, n, c) || IsPending(r, n, c)
  {
    hide IsPending;
    var p := Insert(q, j, r);
    assert p[j] == r;
    assert forall x :: 0 <= x < |q| ==> q[x] == p[if x < j then x else x + 1];
  }

  /** What another request in the queue, that is not a barrier, needs to keep the order. */
  lemma InsertHeld(s: State, t: State, j: nat, r: Rq, last: bool)
    requires Ranks(s) && Guarded(s) && LastIs(s, last) && j <= |s.queue| && !r.Barrier() && !Later(r, s.added)
    requires t == s.(queue := Insert(s.queue, j, r), sorted := t.sorted, issued := t.issued, special := t.special, ordcolor := t.ordcolor)
    requires t.sorted <= s.sorted && t.issued <= s.issued
    requires forall y :: j <= y < |s.queue| && s.queue[y].Barrier() ==> !Later(r, s.queue[y].epoch)
    requires forall n, c :: Pending(s, n, c) && Later(r, n) ==> r.color != c || HasLater(s.queue[..j], n)
    ensures Ranks(t) && Guarded(t) && LastIs(t, last)
  {
    hide Placed, Waiting, Blocked, Pending, Insert, HasLater;
    PlacedInsert(s.queue, j, r, FirstWaiting(s), s.added);
    WaitingInsert(s.queue, j, r, FirstWaiting(s), s.added);
    PendingInsert(s, t, j, r);
    forall n, c | Pending(t, n, c)
      ensures Blocked(t.queue, n, c)
    {
      BlockedInsert(s.queue, j, r, n, c);
    }
  }

  lemma PendingFrom(s: State, n: int, c: bool)
    requires Ranks(s) && Pending(s, n, c)
    ensures s.completed <= n < s.added
  {}

  /** A request that came no later than the barrier in progress, or is not ordered, may go anywhere. */
  lemma InsertEarly(s: State, t: State, j: nat, r: Rq, phase: nat, last: bool)
    requires Held(s, phase, last) && j <= |s.queue| && !r.Barrier() && !Later(r, s.completed)
    requires t == s.(queue := Insert(s.queue, j, r), sorted := t.sorted, issued := t.issued, special := t.special, ordcolor := t.ordcolor)
    requires t.sorted == s.sorted && t.issued <= s.issued
    ensures Held(t, phase, last)
  {
    hide Placed, Waiting, Guarded, LastIs, Pending, Insert, HasLater, Closed;
    forall n, c | Pending(s, n, c)
      ensures !Later(r, n)
    {
      PendingFrom(s, n, c);
    }
    forall y | j <= y < |s.queue| && s.queue[y].Barrier()
      ensures !Later(r, s.queue[y].epoch)
    {
      BarrierFrom(s, y);
    }
    InsertHeld(s, t, j, r, last);
    LaterInsert(s.queue, j, r, s.added - 1);
  }

  lemma BarrierFrom(s: State, y: nat)
    requires Ranks(s) && y < |s.queue| && s.queue[y].Barrier()
    ensures s.completed <= s.queue[y].epoch < s.added && s.queue[y].Stop()
  {}

  /** Behind the stop flags, a request of the last epoch has another in front of it for every barrier but the
      last. */
  lemma LastBarrierFirst(s: State, slot: nat, n: int, c: bool)
    requires Ranks(s) && Passable(s.queue, slot) && Pending(s, n, c) && n < s.added - 1
    ensures HasLater(s.queue[..slot], n)
  {
    PendingFrom(s, n, c);
    assert HasBarrier(s.queue, s.added - 1);
    var y :| 0 <= y < |s.queue| && IsBarrier(s.queue[y], s.added - 1);
    assert s.queue[y].Stop() && y < slot;
    assert Later(s.queue[..slot][y], n);
  }

  lemma ClosedBefore(q: seq<Rq>, slot: nat, n: int)
    requires Closed(q, n) && Passable(q, slot)
    ensures HasLater(q[..slot], n)
  {
    var x, y :| 0 <= x <= y < |q| && Later(q[x], n) && q[y].Stop();
    assert Later(q[..slot][x], n);
  }

  /** A request of the last epoch may go behind the stop flags if it can come first and has the other colour, or
      cannot come first. */
  lemma InsertLate(s: State, t: State, slot: nat, r: Rq, last: bool)
    requires Ranks(s) && Guarded(s) && LastIs(s, last) && Passable(s.queue, slot)
    requires Plain(r) && r.epoch == s.added
    requires s.completed < s.added ==> r.color != last || HasLater(s.queue[..slot], s.added - 1)
    requires t == s.(queue := Insert(s.queue, slot, r), sorted := t.sorted, ordcolor := t.ordcolor) && t.sorted <= s.sorted
    ensures Ranks(t) && Guarded(t) && LastIs(t, last)
  {
    hide Placed, Waiting, Guarded, Pending, Insert, HasLater, LastIs;
    forall n, c | Pending(s, n, c)
      ensures r.color != c || HasLater(s.queue[..slot], n)
    {
      PendingFrom(s, n, c);
      if n < s.added - 1 {
        LastBarrierFirst(s, slot, n, c);
      } else {
        LastColour(s, last, c);
      }
    }
    NoBarrierBehind(s, slot);
    InsertHeld(s, t, slot, r, last);
  }

  lemma NoBarrierBehind(s: State, slot: nat)
    requires Ranks(s) && Passable(s.queue, slot)
    ensures forall y :: slot <= y < |s.queue| ==> !s.queue[y].Barrier()
  {
    forall y | slot <= y < |s.queue|
      ensures !s.queue[y].Barrier()
    {
      if s.queue[y].Barrier() {
        BarrierFrom(s, y);
      }
    }
  }

  lemma LastColour(s: State, last: bool, c: bool)
    requires LastIs(s, last) && Pending(s, s.added - 1, c)
    ensures c == last
  {}

  // The events

  lemma AddSortedHeld(s: State, e: Event, phase: nat, last: bool)
    requires Held(s, phase, last) && e.AddSorted? && Enabled(s, e) && (Exposed(phase, e) && s.added > 0 ==> s.ordcolor != last)
    ensures Held(Step(s, e), NextPhase(phase, e), last)
  {
    hide Placed, Waiting, Blocked, Pending, HasLater, Closed;
    SamePending(s, Step(s, e));
  }

  lemma SamePending(s: State, t: State)
    requires t.queue == s.queue && t.orig == s.orig
    ensures forall n, c :: Pending(t, n, c) == Pending(s, n, c)
  {}

  lemma AddFrontHeld(s: State, e: Event, phase: nat, last: bool)
    requires Held(s, phase, last) && e.AddFront? && Enabled(s, e)
    ensures Held(Step(s, e), NextPhase(phase, e), last)
  {
    hide Held;
    var t := Step(s, e);
    assert t.queue == Insert(s.queue, 0, t.queue[0]);
    InsertEarly(s, t, 0, t.queue[0], phase, last);
  }

  lemma AddBackHeld(s: State, e: Event, phase: nat, last: bool)
    requires Held(s, phase, last) && e.AddBack? && !FsBarrier(e) && Enabled(s, e)
    requires Exposed(phase, e) && s.added > 0 ==> s.ordcolor != last
    ensures Held(Step(s, e), NextPhase(phase, e), last)
  {
    hide Ranks, Guarded, LastIs, Closed, HasLater, Insert;
    var t := Step(s, e);
    var q, r := s.queue, t.queue[|s.queue|];
    InsertLast(q, r);
    LaterInsert(q, |q|, r, s.added - 1);
    assert q[..|q|] == q;
    BackPhase(s, t, r, phase, last);
    if e.fs {
      if phase >= 2 && s.completed < s.added {
        ClosedBefore(q, |q|, s.added - 1);
      }
      InsertLate(s, t, |q|, r, last);
    } else {
      BackOther(s, t, r, last);
    }
  }

  lemma BackOther(s: State, t: State, r: Rq, last: bool)
    requires Ranks(s) && Guarded(s) && LastIs(s, last) && r.Normal? && !r.fs
    requires t == s.(queue := Insert(s.queue, |s.queue|, r), ordcolor := t.ordcolor)
    ensures Ranks(t) && Guarded(t) && LastIs(t, last)
  {
    hide Ranks, Guarded, LastIs, Pending, Insert;
    InsertHeld(s, t, |s.queue|, r, last);
  }

  lemma BackPhase(s: State, t: State, r: Rq, phase: nat, last: bool)
    requires Phased(s, phase, last) && s.sorted == multiset{} && r.Normal? && r.stop && (r.fs ==> r.epoch == s.added)
    requires t == s.(queue := s.queue + [r], ordcolor := t.ordcolor)
    ensures Phased(t, if phase == 0 && !r.fs then 0 else 2, last)
  {
    if s.completed < s.added {
      var n := |s.queue|;
      assert t.queue[n] == r && t.queue[n].Stop();
      if r.fs {
        assert Later(t.queue[n], s.added - 1);
      } else if phase == 1 {
        var x :| 0 <= x < n && Later(s.queue[x], s.added - 1);
        assert Later(t.queue[x], s.added - 1);
      } else if phase >= 2 {
        var x, y :| 0 <= x <= y < n && Later(s.queue[x], s.added - 1) && s.queue[y].Stop();
        assert Later(t.queue[x], s.added - 1) && t.queue[y].Stop();
      }
    }
  }

  lemma BarrierRanks(s: State, t: State, r: Rq)
    requires Ranks(s) && s.sorted == multiset{} && r.Barrier() && r.epoch == s.added && r.stop
    requires t == s.(queue := s.queue + [r], added := s.added + 1, ordcolor := t.ordcolor)
    ensures Ranks(t)
  {
    var n := |s.queue|;
    assert forall x :: 0 <= x < n ==> t.queue[x] == s.queue[x];
    assert t.queue[n] == r;
    forall x | FirstWaiting(t) <= x < t.added
      ensures HasBarrier(t.queue, x)
    {
      if x == s.added {
        assert IsBarrier(t.queue[n], x);
      } else {
        assert HasBarrier(s.queue, x);
        var i :| 0 <= i < n && IsBarrier(s.queue[i], x);
        assert t.queue[i] == s.queue[i];
      }
    }
  }

  lemma NoneLater(s: State, c: bool)
    requires Placed(s.queue, FirstWaiting(s), s.added)
    ensures Blocked(s.queue, s.added, c) && forall n, d :: Pending(s, n, d) && !s.Active() ==> n < s.added
  {}

  lemma BarrierGuards(s: State, t: State, r: Rq, last: bool)
    requires Ranks(s) && Guarded(s) && LastIs(s, last) && r.Barrier() && r.epoch == s.added
    requires s.completed < s.added ==> r.color != last || HasLater(s.queue, s.added - 1)
    requires t == s.(queue := s.queue + [r], added := s.added + 1, ordcolor := t.ordcolor)
    ensures Guarded(t) && LastIs(t, r.color)
  {
    hide Placed, Waiting, Blocked, Pending, Insert, HasLater, LastIs;
    var q := s.queue;
    InsertLast(q, r);
    PendingInsert(s, t, |q|, r);
    assert q[..|q|] == q;
    NoneLater(s, r.color);
    forall n, c | Pending(t, n, c)
      ensures Blocked(t.queue, n, c)
    {
      if Pending(s, n, c) {
        PendingFrom(s, n, c);
        if n < s.added - 1 {
          LastBarrierFirst(s, |q|, n, c);
        } else {
          LastColour(s, last, c);
        }
      }
      BlockedInsert(q, |q|, r, n, c);
    }
    assert LastIs(t, r.color) by { NewLast(s, t, r); }
  }

  lemma NewLast(s: State, t: State, r: Rq)
    requires Ranks(s) && r.Barrier() && t.added == s.added + 1
    requires forall n, c :: Pending(t, n, c) <==> Pending(s, n, c) || IsPending(r, n, c)
    ensures LastIs(t, r.color)
  {
    hide Placed, Waiting, Pending;
    forall n, c | Pending(t, n, c) && n == s.added
      ensures c == r.color
    {
      if Pending(s, n, c) {
        PendingFrom(s, n, c);
      }
    }
  }

  lemma AddBarrierHeld(s: State, e: Event, phase: nat, last: bool)
    requires Held(s, phase, last) && FsBarrier(e) && Enabled(s, e)
    requires Exposed(phase, e) && s.added > 0 ==> s.ordcolor != last
    ensures Held(Step(s, e), 0, s.ordcolor)
  {
    hide Ranks, Guarded, LastIs, Closed, HasLater;
    var t := Step(s, e);
    var q, r := s.queue, t.queue[|s.queue|];
    BarrierRanks(s, t, r);
    if phase >= 2 && s.completed < s.added {
      ClosedBefore(q, |q|, s.added - 1);
      assert q[..|q|] == q;
    }
    BarrierGuards(s, t, r, last);
  }

  lemma DispatchHeld(s: State, e: Event, phase: nat, last: bool)
    requires Held(s, phase, last) && e.Dispatch? && Enabled(s, e)
    ensures Held(Step(s, e), phase, last)
  {
    hide Placed, Waiting, Guarded, LastIs, Closed, HasLater, Insert, Passable;
    var t := Step(s, e);
    SlotIn(s.queue, e.slot);
    if phase >= 2 && s.completed < s.added {
      ClosedBefore(s.queue, e.slot, s.added - 1);
    }
    InsertLate(s, t, e.slot, e.r, last);
    LaterInsert(s.queue, e.slot, e.r, s.added - 1);
    InsertedLater(s.queue, e.slot, e.r, s.added - 1);
  }

  lemma SlotIn(q: seq<Rq>, slot: nat)
    requires Passable(q, slot)
    ensures slot <= |q|
  {}

  lemma InsertedLater(q: seq<Rq>, j: nat, r: Rq, n: int)
    requires j <= |q| && Later(r, n)
    ensures HasLater(Insert(q, j, r), n)
  {
    assert Insert(q, j, r)[j] == r;
  }

  // Taking the first request

  /** What the driver may take came no later than the barrier in progress. */
  lemma HeadIsEarly(s: State)
    requires Core(s) && Ranks(s) && Guarded(s) && s.queue != [] && Allowed(s, s.queue[0])
    ensures !s.queue[0].Barrier() && !Later(s.queue[0], s.completed)
  {
    hide Kinds, Once, ProxiesOk, CurSeq;
    var h := s.queue[0];
    if s.Active() {
      CurSeqIsFirstIncomplete(s.ordseq);
      assert Pending(s, s.completed, s.orig.value.color);
      assert Later(h, s.completed) ==> FirstLater(s.queue, s.completed, 0);
    } else if s.completed < s.added {
      assert HasBarrier(s.queue, s.completed);
      var y :| 0 <= y < |s.queue| && IsBarrier(s.queue[y], s.completed);
    }
  }

  lemma TailRanks(s: State, t: State)
    requires Ranks(s) && s.queue != [] && t.queue == s.queue[1..] && Elsewhere(t) && t.added == s.added
    requires FirstWaiting(t) >= FirstWaiting(s)
    requires if s.queue[0].Barrier() then FirstWaiting(t) == s.queue[0].epoch + 1 else FirstWaiting(t) == FirstWaiting(s)
    ensures Ranks(t)
  {
    assert forall x :: 0 <= x < |t.queue| ==> t.queue[x] == s.queue[x + 1];
    forall e | FirstWaiting(t) <= e < t.added
      ensures HasBarrier(t.queue, e)
    {
      assert HasBarrier(s.queue, e);
      var i :| 0 <= i < |s.queue| && IsBarrier(s.queue[i], e);
      assert t.queue[i - 1] == s.queue[i];
    }
  }

  lemma BlockedTail(q: seq<Rq>, n: int, c: bool)
    requires q != [] && Blocked(q, n, c) && !Later(q[0], n)
    ensures Blocked(q[1..], n, c)
  {
    forall x | FirstLater(q[1..], n, x)
      ensures q[1..][x].color != c
    {
      assert forall y :: 0 < y <= x ==> q[y] == q[1..][y - 1];
      assert FirstLater(q, n, x + 1);
    }
  }

  lemma LaterTail(q: seq<Rq>, n: int)
    requires q != [] && !Later(q[0], n)
    ensures HasLater(q, n) ==> HasLater(q[1..], n)
    ensures Closed(q, n) ==> Closed(q[1..], n)
  {
    assert forall x :: 0 < x < |q| ==> q[x] == q[1..][x - 1];
    if Closed(q, n) {
      var x, y :| 0 <= x <= y < |q| && Later(q[x], n) && q[y].Stop();
      assert Later(q[1..][x - 1], n) && q[1..][y - 1].Stop();
    }
  }

  lemma TailHeld(s: State, t: State, phase: nat, last: bool)
    requires Held(s, phase, last) && s.queue != [] && !s.queue[0].Barrier() && !Later(s.queue[0], s.completed)
    requires t == s.(queue := s.queue[1..], issued := t.issued, special := t.special) && Elsewhere(t)
    ensures Held(t, phase, last)
  {
    hide Placed, Waiting, Blocked, Pending, HasLater, Closed, Elsewhere;
    TailRanks(s, t);
    TailPending(s, t);
    forall n, c | Pending(t, n, c)
      ensures Blocked(t.queue, n, c)
    {
      PendingFrom(s, n, c);
      BlockedTail(s.queue, n, c);
    }
    if s.completed < s.added {
      LaterTail(s.queue, s.added - 1);
    }
  }

  lemma TailPending(s: State, t: State)
    requires s.queue != [] && t.queue == s.queue[1..]
    requires t.orig == s.orig || t.orig == Some(s.queue[0])
    ensures forall n, c :: Pending(t, n, c) ==> Pending(s, n, c)
  {
    assert forall x :: 0 <= x < |t.queue| ==> t.queue[x] == s.queue[x + 1];
  }

  lemma FetchHeld(s: State, e: Event, phase: nat, last: bool)
    requires Core(s) && Held(s, phase, last) && e.Fetch? && Enabled(s, e)
    ensures Held(Step(s, e), phase, last)
  {
    hide Core, Guarded, LastIs, Phased, Placed, Waiting, Allowed, Taken;
    HeadIsEarly(s);
    TakenKeeps(s);
    TakenElsewhere(s);
    TailHeld(s, Taken(s), phase, last);
  }

  lemma TakenElsewhere(s: State)
    requires Elsewhere(s) && s.queue != [] && !s.queue[0].Barrier() && !Later(s.queue[0], s.completed)
    ensures Elsewhere(Taken(s))
  {
    hide IsBarrier;
  }

  lemma PeekHeld(s: State, e: Event, phase: nat, last: bool)
    requires Held(s, phase, last) && e.Peek? && Enabled(s, e)
    ensures Held(Step(s, e), phase, last)
  {
    hide Allowed, Ranks, Guarded, Phased, Pending;
    var t := Step(s, e);
    PeekRanks(s, t);
    PeekPending(s, t);
    PeekGuards(s, t);
    PeekPhase(s, t, phase, last);
  }

  lemma PeekRanks(s: State, t: State)
    requires s.queue != [] && t == s.(queue := s.queue[0 := Stopped(s.queue[0])]) && Ranks(s)
    ensures Ranks(t)
  {
    hide IsBarrier;
    assert forall x :: 0 <= x < |t.queue| ==> t.queue[x] == if x == 0 then Stopped(s.queue[0]) else s.queue[x];
    forall x | FirstWaiting(t) <= x < t.added
      ensures HasBarrier(t.queue, x)
    {
      PeekBarrier(s.queue, x);
    }
  }

  lemma PeekBarrier(q: seq<Rq>, e: nat)
    requires q != []
    ensures HasBarrier(q, e) ==> HasBarrier(q[0 := Stopped(q[0])], e)
  {
    if HasBarrier(q, e) {
      var i :| 0 <= i < |q| && IsBarrier(q[i], e);
      assert IsBarrier(q[0 := Stopped(q[0])][i], e);
    }
  }

  lemma PeekPending(s: State, t: State)
    requires s.queue != [] && t == s.(queue := s.queue[0 := Stopped(s.queue[0])])
    ensures forall n, c :: Pending(t, n, c) ==> Pending(s, n, c)
  {
    assert forall x, n, c :: 0 <= x < |s.queue| ==> IsPending(t.queue[x], n, c) == IsPending(s.queue[x], n, c);
  }

  lemma PeekGuards(s: State, t: State)
    requires s.queue != [] && t == s.(queue := s.queue[0 := Stopped(s.queue[0])]) && Guarded(s)
    requires forall n, c :: Pending(t, n, c) ==> Pending(s, n, c)
    ensures Guarded(t)
  {
    hide Pending;
    forall n, c | Pending(t, n, c)
      ensures Blocked(t.queue, n, c)
    {
      assert Pending(s, n, c);
      forall x | FirstLater(t.queue, n, x)
        ensures t.queue[x].color != c
      {
        assert forall y :: 0 <= y < |s.queue| ==> Later(t.queue[y], n) == Later(s.queue[y], n);
        assert FirstLater(s.queue, n, x);
      }
    }
  }

  lemma PeekPhase(s: State, t: State, phase: nat, last: bool)
    requires s.queue != [] && t == s.(queue := s.queue[0 := Stopped(s.queue[0])]) && Phased(s, phase, last)
    ensures Phased(t, phase, last)
  {
    if s.completed < s.added {
      var n := s.added - 1;
      assert forall y :: 0 <= y < |s.queue| ==> Later(t.queue[y], n) == Later(s.queue[y], n);
      assert forall y :: 0 <= y < |s.queue| && s.queue[y].Stop() ==> t.queue[y].Stop();
    }
  }

  // Requeueing and completion

  lemma RequeueHeld(s: State, e: Event, phase: nat, last: bool)
    requires Core(s) && Held(s, phase, last) && e.Requeue? && Enabled(s, e)
    ensures Held(Step(s, e), phase, last)
  {
    hide Once, ProxiesOk, InStep, Guarded, LastIs, Phased, Placed, Waiting, Insert;
    var t := Step(s, e);
    var j := if s.Active() then RequeueSlot(s, e.r, 0) else 0;
    InsertEarly(s, t, j, Stopped(e.r), phase, last);
  }

  /** The barrier in progress may end. */
  lemma SequenceHeld(s: State, bits: OrdSeq, phase: nat, last: bool)
    requires Held(s, phase, last) && s.Active()
    ensures Held(CompleteSeq(s, bits), phase, last)
  {
    hide Placed, Waiting, Blocked, HasLater, Closed, CurSeq, Or;
    var t := CompleteSeq(s, bits);
    assert FirstWaiting(t) == FirstWaiting(s);
    FewerPending(s, t);
  }

  lemma FewerPending(s: State, t: State)
    requires t.queue == s.queue && (t.orig == s.orig || t.orig == None)
    ensures forall n, c :: Pending(t, n, c) ==> Pending(s, n, c)
  {}

  lemma RemoveHeld(s: State, r: Rq, phase: nat, last: bool)
    requires Held(s, phase, last)
    ensures Held(Remove(s, r), phase, last)
  {
    hide Placed, Waiting, Blocked, Pending, HasLater, Closed, Elsewhere, Remove;
    RemoveKeeps(s, r);
    FewerIssued(s, r);
    ElsewhereKept(s, Remove(s, r));
    SamePending(s, Remove(s, r));
  }

  lemma FewerIssued(s: State, r: Rq)
    ensures Remove(s, r).issued <= s.issued
  {}

  lemma ElsewhereKept(s: State, t: State)
    requires Elsewhere(s) && t == s.(issued := t.issued, special := t.special) && t.issued <= s.issued
    ensures Elsewhere(t)
  {
    hide IsBarrier;
  }

  lemma CompleteHeld(s: State, e: Event, phase: nat, last: bool)
    requires Core(s) && Held(s, phase, last) && e.Complete? && Enabled(s, e)
    ensures Held(Step(s, e), phase, last)
  {
    hide Core, Held, Remove, CompleteSeq, CurSeq, ReqSeq, BitOf;
    RemoveKeeps(s, e.r);
    RemoveHeld(s, e.r, phase, last);
    var u := Remove(s, e.r);
    if e.r.Normal? {
      if u.Active() {
        SequenceHeld(u, DRAIN_BIT, phase, last);
      }
    } else {
      ProxyEndsCore(s, e.r);
      SequenceHeld(u, BitOf(e.r), phase, last);
    }
  }

  // Starting

  /** The barrier leaves the queue to be in progress. */
  lemma StartTailHeld(s: State, u: State, phase: nat, last: bool)
    requires Held(s, phase, last) && !s.Active() && s.queue != [] && s.queue[0].Barrier()
    requires u == s.(queue := s.queue[1..], orig := Some(s.queue[0]), ordseq := u.ordseq)
    ensures Held(u, phase, last)
  {
    hide Waiting, Blocked, Pending, HasLater, Closed;
    HeadBarrier(s);
    TailRanks(s, u);
    TailPending(s, u);
    forall n, c | Pending(u, n, c)
      ensures Blocked(u.queue, n, c)
    {
      PendingFrom(s, n, c);
      BlockedTail(s.queue, n, c);
    }
    LaterTail(s.queue, s.added - 1);
  }

  lemma HeadBarrier(s: State)
    requires Ranks(s) && !s.Active() && s.queue != [] && s.queue[0].Barrier()
    ensures s.queue[0].epoch == s.completed < s.added
  {
    assert HasBarrier(s.queue, s.completed);
    var y :| 0 <= y < |s.queue| && IsBarrier(s.queue[y], s.completed);
  }

  lemma PushHeld(s: State, wanted: bool, r: Rq, phase: nat, last: bool)
    requires Held(s, phase, last) && !r.Normal?
    ensures Held(s.(queue := Push(wanted, r, s.queue)), phase, last)
  {
    hide Held;
    if wanted {
      assert [r] + s.queue == Insert(s.queue, 0, r);
      InsertEarly(s, s.(queue := [r] + s.queue), 0, r, phase, last);
    } else {
      assert s.(queue := s.queue) == s;
    }
  }

  lemma StartHeld(s: State, e: Event, phase: nat, last: bool)
    requires Held(s, phase, last) && e.Start? && Enabled(s, e)
    ensures Held(Step(s, e), phase, last)
  {
    hide Held, Push, CompleteSeq;
    var b := s.queue[0];
    var doPost := e.postflush && b.sectors != 0;
    var u := s.(queue := s.queue[1..], orig := Some(b), ordseq := IDLE.(started := true));
    StartTailHeld(s, u, phase, last);
    PushHeld(u, doPost, Post, phase, last);
    var u1 := u.(queue := Push(doPost, Post, u.queue));
    PushHeld(u1, b.sectors != 0, Bar, phase, last);
    var u2 := u1.(queue := Push(b.sectors != 0, Bar, u1.queue));
    PushHeld(u2, e.preflush, Pre, phase, last);
    var u3 := u2.(queue := Push(e.preflush, Pre, u2.queue));
    SequenceHeld(u3, OrdSeq(false, s.issued == multiset{}, !e.preflush, b.sectors == 0, !doPost), phase, last);
  }

  /** Every event keeps it, if the first request that can come behind the last barrier has the other colour. */
  lemma StepHeld(s: State, e: Event, phase: nat, last: bool)
    requires Core(s) && Held(s, phase, last) && Enabled(s, e)
    requires Exposed(phase, e) && s.added > 0 ==> s.ordcolor != last
    ensures Held(Step(s, e), NextPhase(phase, e), NextLast(s, last, e))
  {
    hide Core, Held, Step, Enabled;
    match e
    case AddSorted(_, _, _, _) => AddSortedHeld(s, e, phase, last);
    case AddBack(_, _, _, _, _, _) => if FsBarrier(e) { AddBarrierHeld(s, e, phase, last); } else { AddBackHeld(s, e, phase, last); }
    case AddFront(_, _, _, _, _) => AddFrontHeld(s, e, phase, last);
    case Dispatch(_, _) => DispatchHeld(s, e, phase, last);
    case Start(_, _) => StartHeld(s, e, phase, last);
    case Peek => PeekHeld(s, e, phase, last);
    case Fetch => FetchHeld(s, e, phase, last);
    case Requeue(_) => RequeueHeld(s, e, phase, last);
    case Complete(_) => CompleteHeld(s, e, phase, last);
  }
}

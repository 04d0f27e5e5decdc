/** What every interleaving keeps: requests queued after a barrier wait for its whole sequence,
    and the sequence waits for every request queued before. */
module BarrierSafety {
  import opened Options
  import opened BarrierModel

  /** Requests subject to ordering: file system requests and the internal ones. */
  predicate Keyed(r: Rq) { !r.Normal? || r.fs }

  /** A file system request that is not a barrier. */
  predicate Plain(r: Rq) { r.Normal? && r.fs && !r.barrier }

  /** Where a request belongs when barrier `e` is the next to complete. */
  function Key(r: Rq, e: nat): nat {
    match r
    case Pre => 8 * e + 1
    case Bar => 8 * e + 2
    case Post => 8 * e + 3
    case Normal(_, _, barrier, _, _, _, _, _, epoch) => if barrier then 8 * epoch + 4 else 8 * epoch
  }

  predicate Before(a: Rq, b: Rq, e: nat) {
    Keyed(a) && Keyed(b) ==> Key(a, e) < Key(b, e) || (Key(a, e) == Key(b, e) && Plain(a))
  }

  ghost predicate Ordered(q: seq<Rq>, e: nat) {
    forall i, j {:trigger Before(q[i], q[j], e)} :: 0 <= i < j < |q| ==> Before(q[i], q[j], e)
  }

  ghost predicate InRange(q: seq<Rq>, lo: nat, hi: nat) {
    forall i :: 0 <= i < |q| && Keyed(q[i]) ==> 8 * lo <= Key(q[i], lo) <= 8 * hi
  }

  predicate IsBarrier(r: Rq, e: nat) { r.Barrier() && r.epoch == e }

  ghost predicate HasBarrier(q: seq<Rq>, e: nat) {
    exists i :: 0 <= i < |q| && IsBarrier(q[i], e)
  }

  /** The barriers queued and not yet started are in the queue. */
  ghost predicate Waiting(q: seq<Rq>, lo: nat, hi: nat) {
    forall e {:trigger HasBarrier(q, e)} :: lo <= e < hi ==> HasBarrier(q, e)
  }

  /** Queued barriers and queued requests that are not ordered carry a stop flag. */
  predicate WellFormed(r: Rq) {
    r.Normal? && (r.barrier || !r.fs) ==> r.stop
  }

  ghost predicate QueueOk(s: State) {
    && Ordered(s.queue, s.completed)
    && InRange(s.queue, s.completed, s.added)
    && Waiting(s.queue, FirstWaiting(s), s.added)
    && (forall i :: 0 <= i < |s.queue| ==> WellFormed(s.queue[i]))
  }

  ghost predicate SortedOk(s: State) {
    forall r :: r in s.sorted ==> Plain(r) && r.epoch == s.added && WellFormed(r) && !r.stop
  }

  /** Only requests of the current epoch are with the driver. */
  ghost predicate FlightOk(s: State) {
    && (forall r :: r in s.issued ==> r == Bar || (Plain(r) && r.epoch == s.completed && !r.stop))
    && (forall r :: r in s.special ==> r == Pre || r == Post || (r.Normal? && !r.fs && !r.stop))
  }

  predicate Queued(q: seq<Rq>, r: Rq) { r in q }

  /** An internal request is in the queue or with the driver exactly while its bit is clear. */
  ghost predicate ProxyOk(s: State, p: Rq, flight: multiset<Rq>, bit: bool) {
    && flight[p] <= 1
    && (p in flight ==> !Queued(s.queue, p))
    && ((Queued(s.queue, p) || p in flight) <==> (s.Active() && !bit))
  }

  ghost predicate ProxiesOk(s: State) {
    && ProxyOk(s, Pre, s.special, s.ordseq.pre)
    && ProxyOk(s, Bar, s.issued, s.ordseq.bar)
    && ProxyOk(s, Post, s.special, s.ordseq.post)
    && (Pre in s.special ==> s.ordseq.drain)
    && (Bar in s.issued ==> s.ordseq.drain && s.ordseq.pre)
    && (Post in s.special ==> s.ordseq.drain && s.ordseq.pre && s.ordseq.bar)
  }

  /** While barrier `completed` is in progress, requests queued before it carry a stop flag, and
      after its drain there are none. */
  ghost predicate EarlierOk(s: State) {
    s.Active() ==>
      forall r :: r in s.queue && r.Normal? && r.fs && r.epoch == s.completed ==> !r.barrier && r.stop && !s.ordseq.drain
  }

  ghost predicate SequenceOk(s: State) {
    && (s.ordseq.started <==> s.Active())
    && (!s.Active() ==> s.ordseq == IDLE)
    && s.completed <= s.added
    && (s.Active() ==> IsBarrier(s.orig.value, s.completed) && s.completed < s.added)
    && (s.ordseq.drain ==> forall r :: r in s.issued ==> r == Bar)
  }

  predicate Finished(o: OrdSeq) { o.started && o.drain && o.pre && o.bar && o.post }

  ghost predicate Parts(s: State) {
    QueueOk(s) && SortedOk(s) && FlightOk(s) && ProxiesOk(s) && EarlierOk(s) && SequenceOk(s)
  }

  ghost predicate Inv(s: State) { Parts(s) && !Finished(s.ordseq) }

  // Colours

  /** A file system request queued after barrier `n`. */
  predicate Later(r: Rq, n: int) { r.Normal? && r.fs && r.epoch > n }

  ghost predicate FirstLater(q: seq<Rq>, n: int, x: int) {
    0 <= x < |q| && Later(q[x], n) && forall y :: 0 <= y < x ==> !Later(q[y], n)
  }

  /** The first of them in the queue, if any, has another colour than `c`. */
  ghost predicate Blocked(q: seq<Rq>, n: int, c: bool) { forall x :: FirstLater(q, n, x) ==> q[x].color != c }

  /** Barrier `n`, of colour `c`, is in progress or waits in the queue. */
  ghost predicate Pending(s: State, n: int, c: bool) {
    HasPending(s.queue, n, c) || (s.Active() && IsPending(s.orig.value, n, c))
  }

  ghost predicate HasPending(q: seq<Rq>, n: int, c: bool) { exists x :: 0 <= x < |q| && IsPending(q[x], n, c) }

  predicate IsPending(r: Rq, n: int, c: bool) { r.Barrier() && r.epoch == n && r.color == c }

  /** The requests queued before the barrier in progress have its colour, and the first one queued after it has
      the other. */
  ghost predicate Sided(s: State) {
    s.Active() && s.orig.value.Normal? ==>
      && (forall r :: (r in s.queue || r in s.issued) && Plain(r) && r.epoch == s.completed ==> r.color == s.orig.value.color)
      && Blocked(s.queue, s.completed, s.orig.value.color)
  }


  /** Nothing queued before the barrier in progress is left anywhere. */
  ghost predicate NothingEarlier(s: State) {
    && (forall r :: r in s.queue && Plain(r) ==> r.epoch > s.completed)
    && (forall r :: r in s.sorted ==> Plain(r) && r.epoch > s.completed)
    && (forall r :: r in s.issued ==> r == Bar)
  }

  /** The two ordering promises. */
  ghost predicate Safe(s: State) {
    && (forall r :: r in s.issued && r.Normal? ==> r.epoch == s.completed)
    && ((Pre in s.special || Bar in s.issued || Post in s.special) ==> s.Active() && NothingEarlier(s))
  }

  lemma InvIsSafe(s: State)
    requires Inv(s)
    ensures Safe(s)
  {
    if Pre in s.special || Bar in s.issued || Post in s.special {
      assert s.ordseq.drain;
      forall r | r in s.queue && Plain(r)
        ensures r.epoch > s.completed
      {
        var i :| 0 <= i < |s.queue| && s.queue[i] == r;
        assert Key(r, s.completed) == 8 * r.epoch;
      }
    }
  }

  lemma InitialInv()
    ensures Inv(INITIAL)
  {}

  // Sequences

  lemma InsertOrdered(q: seq<Rq>, j: nat, r: Rq, e: nat)
    requires Ordered(q, e) && j <= |q|
    requires forall i :: 0 <= i < j ==> Before(q[i], r, e)
    requires forall i :: j <= i < |q| ==> Before(r, q[i], e)
    ensures Ordered(Insert(q, j, r), e)
  {
    var p := Insert(q, j, r);
    forall x, y | 0 <= x < y < |p|
      ensures Before(p[x], p[y], e)
    {
      var x' := if x < j then x else x - 1;
      var y' := if y < j then y else y - 1;
      if x != j && y != j {
        assert Before(q[x'], q[y'], e);
      }
    }
  }

  lemma InsertMembers(q: seq<Rq>, j: nat, r: Rq)
    requires j <= |q|
    ensures forall x :: x in Insert(q, j, r) <==> x == r || x in q
    ensures forall x :: Queued(Insert(q, j, r), x) <==> x == r || Queued(q, x)
    ensures r.Normal? ==> forall x: Rq :: !x.Normal? ==> Queued(Insert(q, j, r), x) == Queued(q, x)
  {
    var p := Insert(q, j, r);
    forall x | x in q
      ensures x in p
    {
      var i :| 0 <= i < |q| && q[i] == x;
      assert p[if i < j then i else i + 1] == x;
    }
    assert p[j] == r;
  }

  /** The first barrier that has not started. */
  function FirstWaiting(s: State): nat {
    if s.Active() then s.completed + 1 else s.completed
  }

  lemma InsertQueueOk(s: State, t: State, j: nat, r: Rq)
    requires QueueOk(s) && j <= |s.queue|
    requires t.queue == Insert(s.queue, j, r)
    requires t.completed == s.completed && t.added == s.added && t.Active() == s.Active()
    requires WellFormed(r) && (Keyed(r) ==> 8 * s.completed <= Key(r, s.completed) <= 8 * s.added)
    requires forall i :: 0 <= i < j ==> Before(s.queue[i], r, s.completed)
    requires forall i :: j <= i < |s.queue| ==> Before(r, s.queue[i], s.completed)
    ensures QueueOk(t)
  {
    var q := s.queue;
    InsertOrdered(q, j, r, s.completed);
    forall e | FirstWaiting(s) <= e < s.added
      ensures HasBarrier(t.queue, e)
    {
      assert HasBarrier(q, e);
      var i :| 0 <= i < |q| && IsBarrier(q[i], e);
      assert t.queue[if i < j then i else i + 1] == q[i];
    }
  }

  lemma TailKeeps(q: seq<Rq>, lo: nat, hi: nat, w: nat)
    requires q != []
    requires Ordered(q, lo) && InRange(q, lo, hi)
    requires Waiting(q, w, hi)
    requires q[0].Barrier() ==> q[0].epoch < w
    ensures Ordered(q[1..], lo) && InRange(q[1..], lo, hi)
    ensures Waiting(q[1..], w, hi)
  {
    var p := q[1..];
    forall x, y | 0 <= x < y < |p|
      ensures Before(p[x], p[y], lo)
    {
      assert Before(q[x + 1], q[y + 1], lo);
    }
    forall e | w <= e < hi
      ensures HasBarrier(p, e)
    {
      assert HasBarrier(q, e);
      var i :| 0 <= i < |q| && IsBarrier(q[i], e);
      assert p[i - 1] == q[i];
    }
  }

  /** The first request cannot belong behind a barrier that is still waiting. */
  lemma HeadEpoch(s: State)
    requires QueueOk(s) && s.queue != [] && s.queue[0].Normal? && s.queue[0].fs
    requires FirstWaiting(s) <= s.added
    ensures s.completed <= s.queue[0].epoch <= FirstWaiting(s)
  {
    var h := s.queue[0];
    var w := FirstWaiting(s);
    assert 8 * s.completed <= Key(h, s.completed) <= 8 * s.added;
    if w < s.added {
      assert HasBarrier(s.queue, w);
      var i :| 0 <= i < |s.queue| && IsBarrier(s.queue[i], w);
      assert i == 0 || Before(h, s.queue[i], s.completed);
    }
  }

  // What a step that does not touch a part keeps of it

  lemma ProxiesKept(s: State, t: State)
    requires ProxiesOk(s)
    requires t.ordseq == s.ordseq && t.Active() == s.Active()
    requires t.issued[Bar] == s.issued[Bar] && t.special[Pre] == s.special[Pre] && t.special[Post] == s.special[Post]
    requires Queued(t.queue, Pre) == Queued(s.queue, Pre)
    requires Queued(t.queue, Bar) == Queued(s.queue, Bar)
    requires Queued(t.queue, Post) == Queued(s.queue, Post)
    ensures ProxiesOk(t)
  {
    hide Queued;
  }

  lemma FlightKept(s: State, t: State)
    requires FlightOk(s) && SequenceOk(s)
    requires t == s.(queue := t.queue, sorted := t.sorted, issued := t.issued, special := t.special, ordcolor := t.ordcolor)
    requires t.issued <= s.issued && t.special <= s.special
    ensures FlightOk(t) && SequenceOk(t)
  {
    hide WellFormed, IsBarrier;
  }

  lemma EarlierKept(s: State, t: State, r: Rq)
    requires EarlierOk(s)
    requires t.ordseq == s.ordseq && t.orig == s.orig && t.completed == s.completed
    requires forall x :: x in t.queue ==> x == r || x in s.queue
    requires s.Active() && r.Normal? && r.fs && r.epoch == s.completed ==> !r.barrier && r.stop && !s.ordseq.drain
    ensures EarlierOk(t)
  {}

  lemma SortedKept(s: State, t: State)
    requires SortedOk(s) && t.sorted <= s.sorted && t.added == s.added
    ensures SortedOk(t)
  {
    hide WellFormed;
  }

  lemma SequenceNormal(s: State)
    requires SequenceOk(s)
    ensures s.Active() ==> s.orig.value.Normal? && s.orig.value.epoch == s.completed
    ensures s.completed <= s.added && FirstWaiting(s) <= s.added
    ensures s.ordseq.started <==> s.Active()
    ensures !s.Active() ==> s.ordseq == IDLE
    ensures s.ordseq.drain ==> forall r :: r in s.issued ==> r == Bar
  {}

  /** Inserting a request that is not an internal one changes nothing but the queue. */
  lemma InsertInv(s: State, t: State, j: nat, r: Rq)
    requires Inv(s) && j <= |s.queue| && r.Normal?
    requires t == s.(queue := Insert(s.queue, j, r), sorted := t.sorted, issued := t.issued, special := t.special, ordcolor := t.ordcolor)
    requires t.sorted <= s.sorted && t.issued <= s.issued && t.special <= s.special
    requires t.issued[Bar] == s.issued[Bar] && t.special[Pre] == s.special[Pre] && t.special[Post] == s.special[Post]
    requires QueueOk(t)
    requires s.Active() && r.fs && r.epoch == s.completed ==> !r.barrier && r.stop && !s.ordseq.drain
    ensures Inv(t)
  {
    hide QueueOk, SortedOk, FlightOk, ProxiesOk, EarlierOk, SequenceOk, Queued, Insert;
    InsertMembers(s.queue, j, r);
    ProxiesKept(s, t);
    FlightKept(s, t);
    EarlierKept(s, t, r);
    SortedKept(s, t);
  }

  // Adding and dispatching

  lemma AddSortedInv(s: State, e: Event)
    requires Inv(s) && e.AddSorted? && Enabled(s, e)
    ensures Inv(Step(s, e))
  {
    hide QueueOk, FlightOk, ProxiesOk, EarlierOk, SequenceOk;
    SequenceNormal(s);
    var t := Step(s, e);
    FlightKept(s, t);
    ProxiesKept(s, t);
    assert QueueOk(t) by { QueueKept(s, t); }
    assert EarlierOk(t) by { EarlierKept(s, t, Pre); }
  }

  lemma QueueKept(s: State, t: State)
    requires QueueOk(s)
    requires t.queue == s.queue && t.completed == s.completed && t.added == s.added && t.Active() == s.Active()
    ensures QueueOk(t)
  {}

  lemma AddFrontInv(s: State, e: Event)
    requires Inv(s) && e.AddFront? && Enabled(s, e)
    ensures Inv(Step(s, e))
  {
    hide SortedOk, FlightOk, ProxiesOk, EarlierOk, SequenceOk;
    SequenceNormal(s);
    var t := Step(s, e);
    var r := t.queue[0];
    assert t.queue == Insert(s.queue, 0, r);
    InsertQueueOk(s, t, 0, r);
    InsertInv(s, t, 0, r);
  }

  lemma DispatchSlot(s: State, r: Rq, slot: nat)
    requires QueueOk(s) && SequenceOk(s) && EarlierOk(s) && Passable(s.queue, slot)
    requires Plain(r) && r.epoch == s.added
    ensures forall i :: 0 <= i < slot ==> Before(s.queue[i], r, s.completed)
    ensures forall i :: slot <= i < |s.queue| ==> Before(r, s.queue[i], s.completed)
  {
    var q := s.queue;
    var waiting := FirstWaiting(s) < s.added;
    var k := -1;
    if waiting {
      assert HasBarrier(q, s.added - 1);
      k :| 0 <= k < |q| && IsBarrier(q[k], s.added - 1);
      assert q[k].Stop() && k < slot;
    }
    forall i | slot <= i < |q|
      ensures Before(r, q[i], s.completed)
    {
      assert !q[i].Stop() && WellFormed(q[i]) && Plain(q[i]) && s.completed <= q[i].epoch && q[i] in q;
      if waiting {
        assert Before(q[k], q[i], s.completed);
      }
    }
  }

  lemma DispatchInv(s: State, e: Event)
    requires Inv(s) && e.Dispatch? && Enabled(s, e)
    ensures Inv(Step(s, e))
  {
    hide FlightOk, ProxiesOk, EarlierOk, SequenceOk, QueueOk, Before;
    SequenceNormal(s);
    var t := Step(s, e);
    DispatchSlot(s, e.r, e.slot);
    InsertQueueOk(s, t, e.slot, e.r);
    InsertInv(s, t, e.slot, e.r);
  }

  lemma AddBackInv(s: State, e: Event)
    requires Inv(s) && e.AddBack? && Enabled(s, e) && !(e.fs && e.barrier)
    ensures Inv(Step(s, e))
  {
    hide SortedOk, FlightOk, ProxiesOk, EarlierOk;
    var t := Step(s, e);
    var r := t.queue[|s.queue|];
    assert t.queue == Insert(s.queue, |s.queue|, r);
    InsertQueueOk(s, t, |s.queue|, r);
    InsertInv(s, t, |s.queue|, r);
  }

  lemma AddBarrierQueue(s: State, t: State, r: Rq)
    requires QueueOk(s) && WellFormed(r) && IsBarrier(r, s.added)
    requires t.queue == Insert(s.queue, |s.queue|, r)
    requires t.completed == s.completed && t.added == s.added + 1 && t.Active() == s.Active()
    requires s.completed <= s.added
    ensures QueueOk(t)
  {
    var n := |s.queue|;
    InsertOrdered(s.queue, n, r, s.completed);
    forall x | FirstWaiting(t) <= x < t.added
      ensures HasBarrier(t.queue, x)
    {
      if x == s.added {
        assert IsBarrier(t.queue[n], x);
      } else {
        assert HasBarrier(s.queue, x);
        var i :| 0 <= i < |s.queue| && IsBarrier(s.queue[i], x);
        assert t.queue[i] == s.queue[i];
      }
    }
  }

  lemma AddBarrierInv(s: State, e: Event)
    requires Inv(s) && e.AddBack? && Enabled(s, e) && e.fs && e.barrier
    ensures Inv(Step(s, e))
  {
    hide QueueOk, FlightOk, ProxiesOk, EarlierOk, Queued, Insert;
    var t := Step(s, e);
    var r := t.queue[|s.queue|];
    assert t.queue == Insert(s.queue, |s.queue|, r) by { InsertLast(s.queue, r); }
    AddBarrierQueue(s, t, r);
    InsertMembers(s.queue, |s.queue|, r);
    ProxiesKept(s, t);
    FlightKept(s, t.(added := s.added));
    FlightSame(t.(added := s.added), t);
    EarlierKept(s, t, r);
  }

  lemma InsertLast(q: seq<Rq>, r: Rq)
    ensures Insert(q, |q|, r) == q + [r]
  {}

  lemma FlightSame(s: State, t: State)
    requires FlightOk(s) && t.issued == s.issued && t.special == s.special && t.completed == s.completed
    ensures FlightOk(t)
  {
    hide WellFormed;
  }

  // Taking the first request

  lemma PeekQueue(s: State, t: State)
    requires QueueOk(s) && s.queue != []
    requires t == s.(queue := s.queue[0 := Stopped(s.queue[0])])
    ensures QueueOk(t)
  {
    forall i, j | 0 <= i < j < |t.queue|
      ensures Before(t.queue[i], t.queue[j], t.completed)
    {
      assert Before(s.queue[i], s.queue[j], s.completed);
    }
    forall x | FirstWaiting(t) <= x < t.added
      ensures HasBarrier(t.queue, x)
    {
      assert HasBarrier(s.queue, x);
      var i :| 0 <= i < |s.queue| && IsBarrier(s.queue[i], x);
      assert IsBarrier(t.queue[i], x);
    }
  }

  lemma PeekMembers(q: seq<Rq>)
    requires q != []
    ensures forall x :: x in q[0 := Stopped(q[0])] ==> x in q || x == Stopped(q[0])
    ensures forall x: Rq :: !x.Normal? ==> Queued(q[0 := Stopped(q[0])], x) == Queued(q, x)
  {
    var p := q[0 := Stopped(q[0])];
    forall x | x in q && !x.Normal?
      ensures x in p
    {
      var i :| 0 <= i < |q| && q[i] == x;
      assert p[i] == x;
    }
  }

  lemma PeekInv(s: State, e: Event)
    requires Inv(s) && e.Peek? && Enabled(s, e)
    ensures Inv(Step(s, e))
  {
    hide QueueOk, SortedOk, FlightOk, ProxiesOk, SequenceOk, Queued;
    SequenceNormal(s);
    var t := Step(s, e);
    assert s.queue[0] in s.queue;
    PeekQueue(s, t);
    PeekMembers(s.queue);
    ProxiesKept(s, t);
    FlightKept(s, t);
    SortedKept(s, t);
    EarlierKept(s, t, Stopped(s.queue[0]));
  }

  lemma TailMembers(q: seq<Rq>)
    requires q != [] && Once(q)
    ensures forall x :: x in q[1..] ==> x in q
    ensures forall x :: Queued(q, x) <==> x == q[0] || Queued(q[1..], x)
    ensures !q[0].Normal? ==> !Queued(q[1..], q[0])
  {
    assert q == [q[0]] + q[1..];
    if q[0] in q[1..] {
      var i :| 1 <= i < |q| && q[i] == q[0];
      assert q[0].Normal?;
    }
  }

  /** No internal request is queued twice. */
  ghost predicate Once(q: seq<Rq>) {
    forall i, j :: 0 <= i < j < |q| && q[i] == q[j] ==> q[i].Normal?
  }

  lemma OrderedOnce(q: seq<Rq>, e: nat)
    requires Ordered(q, e)
    ensures Once(q)
  {
    forall i, j | 0 <= i < j < |q| && q[i] == q[j]
      ensures q[i].Normal?
    {
      assert Before(q[i], q[j], e);
    }
  }

  /** What the head of the queue is when the driver may take it. */
  lemma HeadAllowed(s: State)
    requires Inv(s) && Sided(s) && s.queue != [] && Allowed(s, s.queue[0])
    ensures var h := s.queue[0];
      match h
      case Pre => s.Active() && s.ordseq.drain && !s.ordseq.pre
      case Bar => s.Active() && s.ordseq.drain && s.ordseq.pre && !s.ordseq.bar
      case Post => s.Active() && s.ordseq.drain && s.ordseq.pre && s.ordseq.bar && !s.ordseq.post
      case Normal(_, fs, _, _, _, _, _, _, _) => fs ==> Plain(h) && h.epoch == s.completed && !s.ordseq.drain
  {
    hide Ordered, CurSeq, Word;
    var h := s.queue[0];
    assert h in s.queue;
    if h.Normal? && h.fs {
      HeadEpoch(s);
    }
    if s.Active() {
      CurSeqIsFirstIncomplete(s.ordseq);
      assert Later(h, s.completed) ==> FirstLater(s.queue, s.completed, 0);
    }
  }

  lemma FetchQueue(s: State, t: State)
    requires QueueOk(s) && s.queue != [] && !s.queue[0].Barrier()
    requires t == Taken(s)
    ensures QueueOk(t)
  {
    TailKeeps(s.queue, s.completed, s.added, FirstWaiting(s));
  }

  lemma FetchProxies(s: State, t: State)
    requires ProxiesOk(s) && s.queue != [] && Once(s.queue)
    requires t == Taken(s)
    requires var h := s.queue[0];
      match h
      case Pre => s.ordseq.drain
      case Bar => s.ordseq.drain && s.ordseq.pre
      case Post => s.ordseq.drain && s.ordseq.pre && s.ordseq.bar
      case _ => true
    ensures ProxiesOk(t)
  {
    hide Once, Queued;
    TailMembers(s.queue);
  }

  lemma FetchFlight(s: State, t: State)
    requires FlightOk(s) && SequenceOk(s) && s.queue != []
    requires t == Taken(s)
    requires WellFormed(s.queue[0])
    requires s.queue[0].Normal? && s.queue[0].fs ==> Plain(s.queue[0]) && s.queue[0].epoch == s.completed && !s.ordseq.drain
    ensures FlightOk(t) && SequenceOk(t)
  {
    hide IsBarrier;
  }

  lemma FetchInv(s: State, e: Event)
    requires Inv(s) && Sided(s) && e.Fetch? && Enabled(s, e)
    ensures Inv(Step(s, e))
  {
    hide Sided, Ordered, Once, InRange, Waiting, SortedOk, FlightOk, ProxiesOk, EarlierOk, SequenceOk, Allowed, Queued;
    SequenceNormal(s);
    var t := Step(s, e);
    HeadAllowed(s);
    FetchQueue(s, t);
    OrderedOnce(s.queue, s.completed);
    FetchProxies(s, t);
    FetchFlight(s, t);
    SortedKept(s, t);
    TailMembers(s.queue);
    EarlierKept(s, t, Pre);
  }

  // Requeueing

  lemma {:induction false} FirstExists(q: seq<Rq>, n: int, i: nat) returns (x: nat)
    requires i < |q| && Later(q[i], n)
    ensures x <= i && FirstLater(q, n, x)
  {
    x := 0;
    while !Later(q[x], n)
      invariant x <= i && forall y :: 0 <= y < x ==> !Later(q[y], n)
      decreases i - x
    {
      x := x + 1;
    }
  }

  /** No file system request is passed: the first one queued after the barrier has the other colour. */
  lemma RequeuePasses(s: State, r: Rq, j: nat)
    requires Inv(s) && Sided(s) && s.Active() && s.ordseq.drain
    requires j <= |s.queue| && ReqSeq(s.orig, r) <= DONE && forall i :: 0 <= i < j ==> ReqSeq(s.orig, s.queue[i]) < ReqSeq(s.orig, r)
    ensures forall i :: 0 <= i < j ==> !s.queue[i].Normal? || !s.queue[i].fs
  {
    hide ProxiesOk, FlightOk, SortedOk, Ordered, Waiting;
    var q := s.queue;
    forall i | 0 <= i < j
      ensures !q[i].Normal? || !q[i].fs
    {
      assert q[i] in q;
      if q[i].Normal? && q[i].fs {
        assert Keyed(q[i]) && 8 * s.completed <= Key(q[i], s.completed);
        var x := FirstExists(q, s.completed, i);
        assert false;
      }
    }
  }

  lemma RequeueProxyQueue(s: State, t: State, r: Rq, j: nat)
    requires Inv(s) && Sided(s) && s.Active() && !r.Normal? && (if r == Bar then r in s.issued else r in s.special)
    requires j == RequeueSlot(s, r, 0)
    requires t.queue == Insert(s.queue, j, r)
    requires t.completed == s.completed && t.added == s.added && t.Active()
    ensures QueueOk(t)
  {
    hide Sided, Ordered, Waiting, Insert, SortedOk, FlightOk;
    RequeuePasses(s, r, j);
    forall i | 0 <= i < |s.queue|
      ensures if i < j then Before(s.queue[i], r, s.completed) else Before(r, s.queue[i], s.completed)
    {
      assert s.queue[i] in s.queue;
      assert s.queue[i] == Pre ==> Queued(s.queue, Pre);
      assert s.queue[i] == Bar ==> Queued(s.queue, Bar);
      assert s.queue[i] == Post ==> Queued(s.queue, Post);
    }
    InsertQueueOk(s, t, j, r);
  }

  lemma RequeueProxies(s: State, t: State, r: Rq, j: nat)
    requires ProxiesOk(s) && s.Active() && !r.Normal? && j <= |s.queue| && (if r == Bar then r in s.issued else r in s.special)
    requires t == Remove(s, r).(queue := Insert(s.queue, j, r))
    ensures ProxiesOk(t)
  {
    hide Queued, Insert;
    InsertMembers(s.queue, j, r);
  }

  lemma RequeueProxyInv(s: State, r: Rq)
    requires Inv(s) && Sided(s) && !r.Normal? && (r in s.issued || r in s.special)
    ensures Inv(RequeueRq(s, r))
  {
    hide Sided, QueueOk, SortedOk, EarlierOk, Queued, Insert;
    var t := RequeueRq(s, r);
    var j := RequeueSlot(s, r, 0);
    RequeueProxyQueue(s, t, r, j);
    RequeueProxies(s, t, r, j);
    InsertMembers(s.queue, j, r);
    FlightKept(s, t);
    SortedKept(s, t);
    EarlierKept(s, t, r);
  }

  lemma RequeueFront(s: State, r: Rq)
    requires SequenceOk(s) && s.Active() && r.Normal? && (r.fs ==> r.color == s.orig.value.color)
    ensures RequeueSlot(s, r, 0) == 0
  {}

  lemma RequeueNormalInv(s: State, r: Rq)
    requires Inv(s) && Sided(s) && r.Normal? && (r in s.issued || r in s.special)
    ensures Inv(RequeueRq(s, r))
  {
    hide SortedOk, ProxiesOk, EarlierOk, Ordered, Waiting, IsBarrier, SequenceOk;
    SequenceNormal(s);
    assert r.fs ==> Plain(r) && r.epoch == s.completed && !s.ordseq.drain;
    if s.Active() {
      RequeueFront(s, r);
    }
    RequeueAtFront(s, RequeueRq(s, r), r);
  }

  lemma RequeueAtFront(s: State, t: State, r: Rq)
    requires Inv(s) && r.Normal?
    requires r.fs ==> Plain(r) && r.epoch == s.completed && !s.ordseq.drain
    requires t == Remove(s, r).(queue := Insert(s.queue, 0, Stopped(r)))
    ensures Inv(t)
  {
    hide SortedOk, ProxiesOk, EarlierOk, SequenceOk, FlightOk;
    SequenceNormal(s);
    InsertQueueOk(s, t, 0, Stopped(r));
    InsertInv(s, t, 0, Stopped(r));
  }

  // Completion

  lemma FinishQueue(s: State, t: State)
    requires QueueOk(s) && s.Active() && EarlierOk(s) && s.ordseq.drain
    requires !Queued(s.queue, Pre) && !Queued(s.queue, Bar) && !Queued(s.queue, Post)
    requires t.queue == s.queue && t.added == s.added && t.completed == s.completed + 1 && !t.Active()
    ensures QueueOk(t)
  {
    forall i | 0 <= i < |s.queue|
      ensures s.queue[i].Normal? && (Keyed(s.queue[i]) ==> s.queue[i].epoch > s.completed)
    {
      assert s.queue[i] in s.queue;
    }
    forall i, j | 0 <= i < j < |t.queue|
      ensures Before(t.queue[i], t.queue[j], t.completed)
    {
      assert Before(s.queue[i], s.queue[j], s.completed);
    }
  }

  /** When every bit is set the barrier is over and the next epoch begins. */
  lemma FinishInv(s: State)
    requires Parts(s) && s.ordseq.started
    ensures Inv(CompleteSeq(s, IDLE))
  {
    hide QueueOk, SortedOk, EarlierOk, Queued, CurSeq, WellFormed;
    CurSeqIsFirstIncomplete(s.ordseq);
    assert Or(s.ordseq, IDLE) == s.ordseq;
    if Finished(s.ordseq) {
      var t := CompleteSeq(s, IDLE);
      FinishQueue(s, t);
      SortedKept(s, t);
      assert EarlierOk(t) by { EarlierIdle(t); }
      assert s.issued == multiset{};
    }
  }

  lemma EarlierIdle(s: State)
    requires !s.Active()
    ensures EarlierOk(s)
  {}

  lemma CompleteSeqSplit(s: State, bits: OrdSeq)
    ensures CompleteSeq(s, bits) == CompleteSeq(s.(ordseq := Or(s.ordseq, bits)), IDLE)
  {}

  /** An earlier request would be at the head, or behind one that is not ordered. */
  lemma DrainedNone(s: State, r: Rq)
    requires QueueOk(s) && SequenceOk(s) && EarlierOk(s) && Sided(s) && s.Active() && s.queue != [] && ReqSeq(s.orig, s.queue[0]) > DRAIN
    requires r in s.queue && r.Normal? && r.fs
    ensures r.epoch != s.completed
  {
    var i :| 0 <= i < |s.queue| && s.queue[i] == r;
    assert s.queue[0] in s.queue && WellFormed(s.queue[0]);
    assert i == 0 || Before(s.queue[0], r, s.completed);
    assert 8 * s.completed <= Key(s.queue[0], s.completed);
  }

  lemma DrainParts(s: State, t: State)
    requires Parts(s) && Sided(s) && s.Active() && s.issued == multiset{} && !s.ordseq.drain
    requires s.queue == [] || ReqSeq(s.orig, s.queue[0]) > DRAIN
    requires t == s.(ordseq := Or(s.ordseq, DRAIN_BIT))
    ensures Parts(t)
  {
    hide Sided, SortedOk, FlightOk, QueueOk, Queued, WellFormed;
    forall r | r in t.queue && r.Normal? && r.fs
      ensures r.epoch != t.completed
    {
      DrainedNone(s, r);
    }
    QueueKept(s, t);
    SortedKept(s, t);
    FlightSame(s, t);
  }

  lemma RemoveInv(s: State, r: Rq)
    requires Inv(s) && r.Normal?
    ensures Inv(Remove(s, r))
  {
    hide SortedOk, FlightOk, QueueOk, Queued, ProxiesOk, EarlierOk, SequenceOk, Remove;
    var t := Remove(s, r);
    RemoveShrinks(s, r);
    QueueKept(s, t);
    SortedKept(s, t);
    FlightKept(s, t);
    ProxiesKept(s, t);
    EarlierKept(s, t, Pre);
  }

  lemma RemoveShrinks(s: State, r: Rq)
    requires r.Normal?
    ensures var t := Remove(s, r);
      && t == s.(issued := t.issued, special := t.special) && t.issued <= s.issued && t.special <= s.special
      && t.issued[Bar] == s.issued[Bar] && t.special[Pre] == s.special[Pre] && t.special[Post] == s.special[Post]
  {}

  lemma DrainedInv(s: State)
    requires Inv(s) && Sided(s)
    ensures Inv(Drained(s))
  {
    hide Sided, QueueOk, SortedOk, FlightOk, ProxiesOk, EarlierOk, SequenceOk, CurSeq, Or, CompleteSeq;
    SequenceNormal(s);
    if s.Active() && s.issued == multiset{} && CurSeq(s.ordseq) == DRAIN && (s.queue == [] || ReqSeq(s.orig, s.queue[0]) > DRAIN) {
      CurSeqIsFirstIncomplete(s.ordseq);
      var t := s.(ordseq := Or(s.ordseq, DRAIN_BIT));
      DrainParts(s, t);
      CompleteSeqSplit(s, DRAIN_BIT);
      StartedOr(s.ordseq, DRAIN_BIT);
      FinishInv(t);
    }
  }

  lemma StartedOr(a: OrdSeq, b: OrdSeq)
    requires a.started
    ensures Or(a, b).started
  {}

  /** The end of an internal request: its bit was clear, and nothing waits for draining. */
  lemma ProxyEnds(s: State, r: Rq)
    requires Inv(s) && !r.Normal? && (r in s.issued || r in s.special)
    ensures Parts(Remove(s, r).(ordseq := Or(s.ordseq, BitOf(r))))
    ensures s.Active() && s.ordseq.drain && !Overlap(s.ordseq, BitOf(r))
    ensures Drained(Remove(s, r)) == Remove(s, r)
  {
    hide SortedOk, QueueOk, EarlierOk, Queued, WellFormed, CurSeq, IsBarrier, ProxiesOk;
    var t := Remove(s, r).(ordseq := Or(s.ordseq, BitOf(r)));
    WhereProxy(s, r);
    ProxyBits(s, t, r);
    CurSeqIsFirstIncomplete(s.ordseq);
    QueueKept(s, t);
    SortedKept(s, t);
    EarlierBits(s, t);
    FlightKept(s, Remove(s, r));
    FlightSame(Remove(s, r), t);
    SequenceBits(Remove(s, r), t);
  }

  lemma SequenceBits(s: State, t: State)
    requires SequenceOk(s) && s.Active() && t == s.(ordseq := t.ordseq)
    requires t.ordseq.started && t.ordseq.drain == s.ordseq.drain
    ensures SequenceOk(t)
  {}

  lemma WhereProxy(s: State, r: Rq)
    requires FlightOk(s) && !r.Normal? && (r in s.issued || r in s.special)
    ensures if r == Bar then r in s.issued else r in s.special
  {}

  lemma ProxyBits(s: State, t: State, r: Rq)
    requires ProxiesOk(s) && !r.Normal? && (if r == Bar then r in s.issued else r in s.special)
    requires t == Remove(s, r).(ordseq := Or(s.ordseq, BitOf(r)))
    ensures ProxiesOk(t)
    ensures s.Active() && s.ordseq.drain && !Overlap(s.ordseq, BitOf(r))
  {
    hide Queued;
  }

  lemma EarlierBits(s: State, t: State)
    requires EarlierOk(s) && t.queue == s.queue && t.orig == s.orig && t.completed == s.completed && t.ordseq.drain == s.ordseq.drain
    ensures EarlierOk(t)
  {}

  lemma CompleteInv(s: State, e: Event)
    requires Inv(s) && Sided(s) && e.Complete? && Enabled(s, e)
    ensures Inv(Step(s, e))
  {
    hide Sided, QueueOk, SortedOk, FlightOk, ProxiesOk, EarlierOk, SequenceOk, CurSeq, Or, CompleteSeq, Drained, Remove, BitOf;
    SequenceNormal(s);
    if e.r.Normal? {
      RemoveInv(s, e.r);
      RemoveSided(s, e.r);
      DrainedInv(Remove(s, e.r));
    } else {
      ProxyEnds(s, e.r);
      var u := Remove(s, e.r);
      assert u.ordseq == s.ordseq by { RemoveKeeps(s, e.r); }
      CompleteSeqSplit(u, BitOf(e.r));
      StartedOr(s.ordseq, BitOf(e.r));
      FinishInv(u.(ordseq := Or(s.ordseq, BitOf(e.r))));
    }
  }

  lemma RemoveSided(s: State, r: Rq)
    requires Sided(s)
    ensures Sided(Remove(s, r))
  {
    hide Blocked;
  }

  lemma RemoveKeeps(s: State, r: Rq)
    ensures Remove(s, r) == s.(issued := Remove(s, r).issued, special := Remove(s, r).special)
  {}

  // Starting

  lemma PushMembers(wanted: bool, r: Rq, q: seq<Rq>)
    ensures forall x :: x in Push(wanted, r, q) <==> (wanted && x == r) || x in q
    ensures forall x :: Queued(Push(wanted, r, q), x) <==> (wanted && x == r) || Queued(q, x)
  {}

  lemma PushQueueOk(s: State, t: State, wanted: bool, r: Rq)
    requires QueueOk(s) && s.Active() && s.completed < s.added && !r.Normal?
    requires forall x :: x in s.queue && Keyed(x) ==> Key(r, s.completed) < Key(x, s.completed)
    requires t == s.(queue := Push(wanted, r, s.queue))
    ensures QueueOk(t)
  {
    if wanted {
      assert t.queue == Insert(s.queue, 0, r);
      forall i | 0 <= i < |s.queue|
        ensures Before(r, s.queue[i], s.completed)
      {
        assert s.queue[i] in s.queue;
      }
      InsertQueueOk(s, t, 0, r);
    }
  }

  /** The barrier leaves the queue; everything behind it belongs to later epochs. */
  lemma StartTail(s: State, u: State)
    requires Inv(s) && !s.Active() && s.queue != [] && s.queue[0].Barrier()
    requires u == s.(queue := s.queue[1..], orig := Some(s.queue[0]), ordseq := IDLE.(started := true))
    ensures QueueOk(u) && IsBarrier(s.queue[0], s.completed) && s.completed < s.added
    ensures forall x :: x in u.queue ==> x.Normal? && (x.fs ==> x.epoch > s.completed)
  {
    hide SortedOk, FlightOk, EarlierOk;
    HeadEpoch(s);
    assert Key(s.queue[0], s.completed) <= 8 * s.added;
    TailKeeps(s.queue, s.completed, s.added, s.completed + 1);
    forall x | x in u.queue
      ensures x.Normal? && (x.fs ==> x.epoch > s.completed)
    {
      var i :| 1 <= i < |s.queue| && s.queue[i] == x;
      assert Before(s.queue[0], s.queue[i], s.completed);
      assert Queued(s.queue, x);
    }
  }

  lemma StartProxies(s: State, t: State, doPre: bool, doBar: bool, doPost: bool)
    requires ProxiesOk(s) && !s.Active() && t.Active()
    requires t.issued == s.issued && t.special == s.special
    requires t.ordseq.pre == !doPre && t.ordseq.bar == !doBar && t.ordseq.post == !doPost
    requires Queued(t.queue, Pre) == doPre && Queued(t.queue, Bar) == doBar && Queued(t.queue, Post) == doPost
    ensures ProxiesOk(t)
  {
    hide Queued;
  }

  lemma StartFlight(s: State, t: State)
    requires FlightOk(s) && SequenceOk(s) && !s.Active() && ProxiesOk(s)
    requires t.issued == s.issued && t.special == s.special && t.completed == s.completed && t.added == s.added
    requires t.Active() && t.ordseq.started && s.completed < s.added
    requires IsBarrier(t.orig.value, s.completed)
    requires t.ordseq.drain == (s.issued == multiset{})
    ensures FlightOk(t) && SequenceOk(t)
  {
    hide IsBarrier, ProxyOk;
  }

  lemma StartParts(s: State, t: State, doPre: bool, doBar: bool, doPost: bool)
    requires Inv(s) && !s.Active() && s.queue != [] && s.queue[0].Barrier()
    requires t == s.(queue := Push(doPre, Pre, Push(doBar, Bar, Push(doPost, Post, s.queue[1..]))),
                     orig := Some(s.queue[0]), ordseq := OrdSeq(true, s.issued == multiset{}, !doPre, !doBar, !doPost))
    ensures Parts(t)
  {
    hide SortedOk, FlightOk, ProxiesOk, SequenceOk, Ordered, InRange, Waiting, Queued, Push;
    var u := s.(queue := s.queue[1..], orig := Some(s.queue[0]), ordseq := IDLE.(started := true));
    StartTail(s, u);
    var u1 := u.(queue := Push(doPost, Post, u.queue));
    PushMembers(doPost, Post, u.queue);
    PushQueueOk(u, u1, doPost, Post);
    var u2 := u1.(queue := Push(doBar, Bar, u1.queue));
    PushMembers(doBar, Bar, u1.queue);
    PushQueueOk(u1, u2, doBar, Bar);
    var u3 := u2.(queue := Push(doPre, Pre, u2.queue));
    PushMembers(doPre, Pre, u2.queue);
    PushQueueOk(u2, u3, doPre, Pre);
    QueueKept(u3, t);
    NotQueued(u.queue);
    StartProxies(s, t, doPre, doBar, doPost);
    StartFlight(s, t);
    SortedKept(s, t);
  }

  lemma NotQueued(q: seq<Rq>)
    requires forall x :: x in q ==> x.Normal?
    ensures !Queued(q, Pre) && !Queued(q, Bar) && !Queued(q, Post)
  {}

  lemma StartInv(s: State, e: Event)
    requires Inv(s) && e.Start? && Enabled(s, e)
    ensures Inv(Step(s, e))
  {
    hide QueueOk, SortedOk, FlightOk, ProxiesOk, EarlierOk, SequenceOk, CurSeq, Push;
    var b := s.queue[0];
    var doPost := e.postflush && b.sectors != 0;
    var q := Push(e.preflush, Pre, Push(b.sectors != 0, Bar, Push(doPost, Post, s.queue[1..])));
    var u := s.(queue := q, orig := Some(b), ordseq := OrdSeq(true, s.issued == multiset{}, !e.preflush, b.sectors == 0, !doPost));
    StartParts(s, u, e.preflush, b.sectors != 0, doPost);
    FinishInv(u);
  }

  // Whole runs

  /** Every event keeps the invariant, as long as the colours side with the barrier in progress. */
  lemma StepInv(s: State, e: Event)
    requires Inv(s) && Sided(s) && Enabled(s, e)
    ensures Inv(Step(s, e))
  {
    hide Inv, Sided, Step, Enabled;
    match e
    case AddSorted(_, _, _, _) => AddSortedInv(s, e);
    case AddBack(_, fs, barrier, _, _, _) =>
      if fs && barrier { AddBarrierInv(s, e); } else { AddBackInv(s, e); }
    case AddFront(_, _, _, _, _) => AddFrontInv(s, e);
    case Dispatch(_, _) => DispatchInv(s, e);
    case Start(_, _) => StartInv(s, e);
    case Peek => PeekInv(s, e);
    case Fetch => FetchInv(s, e);
    case Requeue(_) => RequeueInv(s, e);
    case Complete(_) => CompleteInv(s, e);
  }

  lemma RequeueInv(s: State, e: Event)
    requires Inv(s) && Sided(s) && e.Requeue? && Enabled(s, e)
    ensures Inv(Step(s, e))
  {
    hide Sided, QueueOk, SortedOk, FlightOk, ProxiesOk, EarlierOk, SequenceOk;
    SequenceNormal(s);
    if e.r.Normal? { RequeueNormalInv(s, e.r); } else { RequeueProxyInv(s, e.r); }
  }
}

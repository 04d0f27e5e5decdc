/** The request queue as the block layer changes it, step by step.  Every method is a stretch of
    the runs of BarrierRuns: the ghost field `log` says which. */
module BlockQueue {
  import opened Options
  import opened BarrierModel
  import opened BarrierSafety
  import opened BarrierCore
  import opened BarrierRuns
  import opened BarrierIff
  import opened BarrierEarlier

  /** One sweep of the disk starting at `boundary`: is sector `a` served before sector `c`? */
  predicate Ahead(a: nat, c: nat, boundary: nat) {
    if a >= boundary then c < boundary || a < c else c < boundary && a < c
  }

  class RequestQueue {
    var queue: seq<Rq>
    var sorted: multiset<Rq>
    var inFlight: nat
    var ordseq: OrdSeq
    var origBar: Option<Rq>
    var ordcolor: bool
    // q->next_ordered, one of the drain modes
    var preflush: bool
    var postflush: bool
    // a WARN_ON has fired
    var warned: bool
    // history: stamped on requests, never consulted
    var added: nat

    ghost var issued: multiset<Rq>
    ghost var special: multiset<Rq>
    ghost var completed: nat
    ghost var log: seq<Event>

    ghost function View(): State
      reads this
    {
      State(queue, sorted, issued, special, ordseq, origBar, ordcolor, added, completed)
    }

    ghost predicate Valid()
      reads this
    {
      Possible(log) && After(log) == View() && inFlight == |issued|
    }

    constructor ()
      ensures Valid() && log == [] && !warned
    {
      queue, sorted, inFlight, ordseq, origBar, ordcolor := [], multiset{}, 0, IDLE, None, false;
      preflush, postflush, warned, added := false, false, false, 0;
      issued, special, completed, log := multiset{}, multiset{}, 0, [];
    }

    /** elv_dispatch_sort: the slot of `r` in the sweep that starts at `boundary`, behind every
        request that must not be passed. */
    method SortSlot(r: Rq, boundary: nat) returns (slot: nat)
      requires r.Normal?
      ensures Passable(queue, slot)
      ensures forall i :: slot <= i < |queue| ==>
        queue[i].Normal? && queue[i].write == r.write && Ahead(r.sector, queue[i].sector, boundary)
      ensures slot > 0 ==>
        var p := queue[slot - 1];
        p.Stop() || p.write != r.write || !Ahead(r.sector, p.sector, boundary)
    {
      slot := |queue|;
      while slot > 0
        invariant Passable(queue, slot)
        invariant forall i :: slot <= i < |queue| ==>
          queue[i].Normal? && queue[i].write == r.write && Ahead(r.sector, queue[i].sector, boundary)
      {
        var pos := queue[slot - 1];
        if pos.Stop() {
          return;
        }
        if pos.write != r.write {
          return;
        }
        if r.sector >= boundary {
          if pos.sector < boundary {
            slot := slot - 1;
            continue;
          }
        } else if pos.sector >= boundary {
          return;
        }
        if r.sector >= pos.sector {
          return;
        }
        slot := slot - 1;
      }
    }

    /** The scheduler hands over `r`, sorted or at the tail. */
    method Dispatch(r: Rq, tail: bool, boundary: nat) returns (slot: nat)
      requires Valid() && r in sorted
      modifies this`queue, this`sorted, this`log
      ensures Valid() && sorted == old(sorted) - multiset{r}
      ensures log == old(log) + [Event.Dispatch(r, slot)]
      ensures tail ==> slot == |old(queue)|
      ensures Passable(old(queue), slot) && queue == Insert(old(queue), slot, r)
    {
      hide Core, Possible, After, Passable, Insert, StartOrdered, RequeueRq, CompleteRq, Taken, Allowed;
      RunCore(log);
      SortedNormal(View(), r);
      if tail {
        slot := |queue|;
        PassableEnd(queue);
      } else {
        slot := SortSlot(r, boundary);
      }
      PassableBound(queue, slot);
      Recorded(log, Event.Dispatch(r, slot));
      queue, sorted := Insert(queue, slot, r), sorted - multiset{r};
      log := log + [Event.Dispatch(r, slot)];
    }

    /** elv_drain_elevator */
    method DrainElevator()
      requires Valid()
      modifies this`queue, this`sorted, this`log
      ensures Valid() && sorted == multiset{}
      ensures old(log) <= log && Dispatches(log, |old(log)|, |log|)
    {
      hide Possible, After;
      while sorted != multiset{}
        invariant Valid()
        invariant old(log) <= log && Dispatches(log, |old(log)|, |log|)
        decreases |sorted|
      {
        var r :| r in sorted;
        var tail := *;
        var boundary: nat := *;
        var slot := Dispatch(r, tail, boundary);
      }
    }

    /** elevator_dispatch_fn without force: the scheduler hands over as many as it likes. */
    method DispatchSome() returns (some: bool)
      requires Valid()
      modifies this`queue, this`sorted, this`log
      ensures Valid() && sorted <= old(sorted) && (some ==> |sorted| < |old(sorted)|) && (!some ==> log == old(log))
      ensures old(log) <= log && Dispatches(log, |old(log)|, |log|)
    {
      hide Possible, After;
      var more := *;
      some := false;
      while more && sorted != multiset{}
        invariant Valid() && sorted <= old(sorted) && (some ==> |sorted| < |old(sorted)|) && (!some ==> log == old(log))
        invariant old(log) <= log && Dispatches(log, |old(log)|, |log|)
        decreases |sorted|
      {
        var r :| r in sorted;
        var tail := *;
        var boundary: nat := *;
        var slot := Dispatch(r, tail, boundary);
        some := true;
        more := *;
      }
    }

    /** __elv_add_request and elv_insert for a request put at the front. */
    method AddAtFront(id: nat, hard: bool, write: bool, sector: nat, sectors: nat)
      requires Valid()
      modifies this`queue, this`ordcolor, this`log
      ensures Valid() && log == old(log) + [AddFront(id, hard, write, sector, sectors)]
      ensures queue == [Normal(id, false, hard, write, sector, sectors, old(ordcolor), true, added)] + old(queue)
      ensures ordcolor == (old(ordcolor) != hard)
    {
      hide Possible, After, StartOrdered, RequeueRq, CompleteRq, Taken, Allowed;
      Recorded(log, AddFront(id, hard, write, sector, sectors));
      queue := [Normal(id, false, hard, write, sector, sectors, ordcolor, true, added)] + queue;
      if hard {
        ordcolor := !ordcolor;
      }
      log := log + [AddFront(id, hard, write, sector, sectors)];
    }

    /** __elv_add_request and elv_insert for a barrier, for a request that is not ordered, or for
        one that cannot be sorted: the requests still sorted go before it. */
    method AddAtBack(id: nat, fs: bool, barrier: bool, write: bool, sector: nat, sectors: nat)
      requires Valid()
      modifies this`queue, this`sorted, this`ordcolor, this`added, this`log
      ensures Valid() && old(log) < log && Dispatches(log, |old(log)|, |log| - 1)
      ensures log[|log| - 1] == AddBack(id, fs, barrier, write, sector, sectors)
      ensures sorted == multiset{} && ordcolor == (old(ordcolor) != barrier)
      ensures queue != [] && queue[|queue| - 1] == Normal(id, fs, barrier, write, sector, sectors, old(ordcolor), true, old(added))
    {
      hide Valid;
      DrainElevator();
      Append(id, fs, barrier, write, sector, sectors);
    }

    method Append(id: nat, fs: bool, barrier: bool, write: bool, sector: nat, sectors: nat)
      requires Valid() && sorted == multiset{}
      modifies this`queue, this`ordcolor, this`added, this`log
      ensures Valid() && log == old(log) + [AddBack(id, fs, barrier, write, sector, sectors)]
      ensures queue == old(queue) + [Normal(id, fs, barrier, write, sector, sectors, old(ordcolor), true, old(added))]
      ensures ordcolor == (old(ordcolor) != barrier)
    {
      hide Possible, After, StartOrdered, RequeueRq, CompleteRq, Taken, Allowed;
      ghost var e := AddBack(id, fs, barrier, write, sector, sectors);
      Recorded(log, e);
      queue := queue + [Normal(id, fs, barrier, write, sector, sectors, ordcolor, true, added)];
      if barrier {
        ordcolor := !ordcolor;
        added := if fs then added + 1 else added;
      }
      log := log + [e];
    }

    /** __elv_add_request and elv_insert for any other request. */
    method AddToScheduler(id: nat, write: bool, sector: nat, sectors: nat)
      requires Valid()
      modifies this`sorted, this`log
      ensures Valid() && log == old(log) + [AddSorted(id, write, sector, sectors)]
      ensures sorted == old(sorted) + multiset{Normal(id, true, false, write, sector, sectors, ordcolor, false, added)}
    {
      hide Possible, After, StartOrdered, RequeueRq, CompleteRq, Taken, Allowed;
      Recorded(log, AddSorted(id, write, sector, sectors));
      sorted := sorted + multiset{Normal(id, true, false, write, sector, sectors, ordcolor, false, added)};
      log := log + [AddSorted(id, write, sector, sectors)];
    }

    /** blk_ordered_complete_seq: the bits must be new. */
    method CompleteBits(bits: OrdSeq) returns (finished: bool)
      requires !Overlap(ordseq, bits)
      modifies this`ordseq, this`origBar, this`completed
      ensures View() == CompleteSeq(old(View()), bits)
      ensures finished <==> CurSeq(Or(old(ordseq), bits)) == DONE
    {
      hide CurSeq;
      ordseq := Or(ordseq, bits);
      if CurSeq(ordseq) != DONE {
        return false;
      }
      ordseq := IDLE;
      origBar := None;
      completed := completed + 1;
      return true;
    }

    /** The requests of a sequence are stacked at the head in reverse order; what is not needed
        is to be skipped. */
    method Stack(b: Rq) returns (rq: Option<Rq>, skip: OrdSeq)
      requires b.Normal?
      modifies this`queue
      ensures queue == Push(preflush, Pre, Push(b.sectors != 0, Bar, Push(postflush && b.sectors != 0, Post, old(queue))))
      ensures skip == OrdSeq(false, inFlight == 0, !preflush, b.sectors == 0, !(postflush && b.sectors != 0))
      ensures rq == if inFlight != 0 || (!preflush && b.sectors == 0) then None else Some(if preflush then Pre else Bar)
    {
      skip := IDLE;
      rq := None;
      if postflush && b.sectors != 0 {
        queue := [Post] + queue;
        rq := Some(Post);
      } else {
        skip := skip.(post := true);
      }
      if b.sectors != 0 {
        queue := [Bar] + queue;
        rq := Some(Bar);
      } else {
        skip := skip.(bar := true);
      }
      if preflush {
        queue := [Pre] + queue;
        rq := Some(Pre);
      } else {
        skip := skip.(pre := true);
      }
      if inFlight != 0 {
        rq := None;
      } else {
        skip := skip.(drain := true);
      }
    }

    /** start_ordered: the barrier at the head gives way to its flushes and its write. */
    method Begin() returns (rq: Option<Rq>, gone: bool)
      requires origBar.None? && ordseq == IDLE && queue != [] && queue[0].Barrier() && inFlight == |issued|
      modifies this`queue, this`ordseq, this`origBar, this`completed
      ensures View() == StartOrdered(old(View()), preflush, postflush)
      ensures queue == Push(preflush, Pre, Push(old(queue[0]).sectors != 0, Bar,
        Push(postflush && old(queue[0]).sectors != 0, Post, old(queue[1..]))))
      ensures gone <==> !preflush && old(queue[0]).sectors == 0 && issued == multiset{}
      ensures gone ==> queue == old(queue[1..]) && rq.None?
      ensures !gone && rq.Some? ==> queue != [] && rq.value == queue[0] && Allowed(View(), queue[0])
      ensures !gone && rq.None? ==> origBar.Some? && issued != multiset{} && !ordseq.drain
    {
      hide CurSeq, CompleteSeq, Or, Allowed, Overlap, ReqSeq, Word;
      ordseq := IDLE.(started := true);
      var b := queue[0];
      queue := queue[1..];
      origBar := Some(b);
      var skip;
      rq, skip := Stack(b);
      NewBits(skip);
      SequenceBegun(View(), skip);
      gone := CompleteBits(skip);
      AllBits(skip);
    }

    method StartSequence() returns (rq: Option<Rq>, gone: bool)
      requires Valid() && origBar.None? && queue != [] && queue[0].Barrier()
      modifies this`queue, this`ordseq, this`origBar, this`completed, this`log
      ensures Valid() && log == old(log) + [Start(preflush, postflush)]
      ensures queue == Push(preflush, Pre, Push(old(queue[0]).sectors != 0, Bar,
        Push(postflush && old(queue[0]).sectors != 0, Post, old(queue[1..]))))
      ensures gone <==> !preflush && old(queue[0]).sectors == 0 && issued == multiset{}
      ensures gone ==> queue == old(queue[1..]) && rq.None?
      ensures !gone && rq.Some? ==> queue != [] && rq.value == queue[0] && Allowed(View(), queue[0])
      ensures !gone && rq.None? ==> origBar.Some? && issued != multiset{} && !ordseq.drain
    {
      hide Core, Possible, After, StartOrdered, RequeueRq, CompleteRq, Taken, Allowed, CurSeq;
      RunCore(log);
      Idle(View());
      Recorded(log, Start(preflush, postflush));
      rq, gone := Begin();
      log := log + [Start(preflush, postflush)];
    }

    /** blk_do_ordered for the first request: it may be taken, it has to wait, or it was a barrier
        with nothing to do and is gone. */
    method DoOrdered() returns (rq: Option<Rq>, gone: bool)
      requires Valid() && queue != []
      modifies this`queue, this`ordseq, this`origBar, this`completed, this`log, this`warned
      ensures Valid() && (log == old(log) || log == old(log) + [Start(preflush, postflush)])
      ensures gone ==> rq.None? && queue == old(queue[1..])
      ensures rq.Some? ==> queue != [] && rq.value == queue[0] && Allowed(View(), queue[0])
      ensures !gone && rq.None? ==> MustWait(View())
      ensures log == old(log) ==> !gone && queue == old(queue)
      ensures warned == (old(warned) || old(Late(View()))) && (warned ==> old(warned) || Misleading(Insertions(old(log))))
    {
      hide Possible, After, CurSeq, ReqSeq, Core, Insertions, Misleading;
      RunCore(log);
      var r := queue[0];
      if origBar.None? {
        if !r.Barrier() {
          return Some(r), false;
        }
        rq, gone := StartSequence();
        return;
      }
      if r.Normal? && !r.fs {
        return Some(r), false;
      }
      if ReqSeq(origBar, r) < CurSeq(ordseq) {
        if !Misleading(Insertions(log)) {
          NeverLate(log);
        }
        warned := true;
      }
      if ReqSeq(origBar, r) > CurSeq(ordseq) {
        return None, false;
      }
      return Some(r), false;
    }

    /** __elv_next_request: the first request that may be taken, asking the scheduler for more
        when the queue is empty. */
    method NextRequest() returns (rq: Option<Rq>)
      requires Valid()
      modifies this`queue, this`sorted, this`ordseq, this`origBar, this`completed, this`log, this`warned
      ensures Valid() && old(log) <= log
      ensures rq.Some? ==> queue != [] && rq.value == queue[0] && Allowed(View(), queue[0])
      ensures rq.None? ==> queue == [] || MustWait(View())
      ensures Scheduling(log, |old(log)|)
      ensures warned ==> old(warned) || Misleading(Insertions(log))
    {
      hide Possible, After, Allowed, Insertions, Misleading, MustWait;
      while true
        invariant Valid() && old(log) <= log && Scheduling(log, |old(log)|)
        invariant warned ==> old(warned) || Misleading(Insertions(log))
        decreases |sorted|, |queue|
      {
        ghost var before := log;
        if queue != [] {
          var gone;
          rq, gone := DoOrdered();
          StillMisleading(before, log);
          if !gone {
            return;
          }
        } else {
          var some := DispatchSome();
          StillMisleading(before, log);
          if !some {
            return None;
          }
        }
      }
    }

    /** blk_peek_request: the first request is marked started. */
    method PeekRequest() returns (rq: Option<Rq>)
      requires Valid()
      modifies this`queue, this`sorted, this`ordseq, this`origBar, this`completed, this`log, this`warned
      ensures Valid() && old(log) <= log
      ensures rq.Some? ==> queue != [] && rq.value == queue[0] && Allowed(View(), queue[0])
      ensures rq.Some? ==> |old(log)| < |log| && log[|log| - 1] == Peek && Scheduling(log[..|log| - 1], |old(log)|)
      ensures rq.None? ==> (queue == [] || MustWait(View())) && Scheduling(log, |old(log)|)
      ensures warned ==> old(warned) || Misleading(Insertions(log))
    {
      hide Possible, After, StartOrdered, RequeueRq, CompleteRq, Taken, CurSeq, Insertions, Misleading;
      rq := NextRequest();
      if rq.Some? {
        Recorded(log, Peek);
        ghost var before := log;
        queue := queue[0 := Stopped(queue[0])];
        rq := Some(queue[0]);
        log := log + [Peek];
        assert log[..|log| - 1] == before;
        StillMisleading(before, log);
      }
    }

    /** elv_insert of a requeued request: before the first one that is not earlier in the sequence. */
    method FindSlot(r: Rq) returns (j: nat)
      ensures j == if origBar.Some? then RequeueSlot(View(), r, 0) else 0
    {
      j := 0;
      if origBar.None? {
        return;
      }
      while j < |queue| && ReqSeq(origBar, r) > ReqSeq(origBar, queue[j])
        invariant j <= |queue| && RequeueSlot(View(), r, 0) == RequeueSlot(View(), r, j)
      {
        j := j + 1;
      }
    }

    /** The request leaves the driver and q->in_flight. */
    method Release(r: Rq)
      requires (if r.Fs() then r in issued else r in special) && inFlight == |issued|
      modifies this`inFlight, this`issued, this`special
      ensures View() == Remove(old(View()), r) && inFlight == |issued|
    {
      if r.Fs() {
        OneLess(issued, r);
        inFlight := inFlight - 1;
        issued := issued - multiset{r};
      } else {
        special := special - multiset{r};
      }
    }

    /** elv_requeue_request */
    method RequeueRequest(r: Rq) returns (ghost j: nat)
      requires Valid() && (r in issued || r in special)
      modifies this`queue, this`inFlight, this`issued, this`special, this`log
      ensures Valid() && log == old(log) + [Requeue(r)]
      ensures j <= |old(queue)| && queue == old(queue[..j]) + [Stopped(r)] + old(queue[j..])
      ensures origBar.None? ==> j == 0
      ensures origBar.Some? ==>
        && (forall i :: 0 <= i < j ==> ReqSeq(origBar, old(queue)[i]) < ReqSeq(origBar, r))
        && (j < |old(queue)| ==> ReqSeq(origBar, r) <= ReqSeq(origBar, old(queue)[j]))
    {
      hide Core, Possible, After, StartOrdered, CompleteRq, Allowed, Taken, RequeueSlot, Remove, ReqSeq;
      RunCore(log);
      WhichFlight(View(), r);
      RemoveKeeps(View(), r);
      Recorded(log, Requeue(r));
      SlotBound(View(), r);
      var slot := FindSlot(r);
      j := slot;
      Release(r);
      queue := Insert(queue, slot, Stopped(r));
      log := log + [Requeue(r)];
    }

    /** elv_completed_request */
    method CompletedRequest(r: Rq)
      requires (if r.Fs() then r in issued else r in special) && inFlight == |issued|
      modifies this`inFlight, this`issued, this`special, this`ordseq, this`origBar, this`completed
      ensures View() == Drained(Remove(old(View()), r)) && inFlight == |issued|
      ensures old(origBar.Some? && ordseq.started && !ordseq.drain) ==>
        ((origBar.None? || ordseq.drain) <==> issued == multiset{} && (queue == [] || ReqSeq(old(origBar), queue[0]) > DRAIN))
      ensures old(origBar.None? || (ordseq.started && ordseq.drain)) ==> ordseq == old(ordseq) && origBar == old(origBar)
    {
      hide CurSeq, ReqSeq, Remove;
      RemoveKeeps(View(), r);
      if ordseq.started { CurSeqIsFirstIncomplete(ordseq); }
      Release(r);
      if origBar.Some? {
        if inFlight == 0 && CurSeq(ordseq) == DRAIN && (queue == [] || ReqSeq(origBar, queue[0]) > DRAIN) {
          DrainIsNew(ordseq);
          var finished := CompleteBits(DRAIN_BIT);
        }
      }
    }

    /** The end of a request: for the internal ones, pre_flush_end_io, bar_end_io and
        post_flush_end_io. */
    method Finish(r: Rq)
      requires Core(View()) && (r in issued || r in special) && inFlight == |issued|
      modifies this`inFlight, this`issued, this`special, this`ordseq, this`origBar, this`completed
      ensures View() == CompleteRq(old(View()), r) && inFlight == |issued|
    {
      hide Core, CompleteSeq, Drained, Overlap, BitOf, Remove;
      ghost var s := View();
      WhichFlight(s, r);
      CompletedRequest(r);
      if !r.Normal? {
        ProxyEndsCore(s, r);
        RemoveKeeps(s, r);
        var finished := CompleteBits(BitOf(r));
      }
    }

    method EndRequest(r: Rq)
      requires Valid() && (r in issued || r in special)
      modifies this`inFlight, this`issued, this`special, this`ordseq, this`origBar, this`completed, this`log
      ensures Valid() && log == old(log) + [Complete(r)]
    {
      hide Core, Possible, After, StartOrdered, RequeueRq, CompleteRq, Allowed, Taken;
      RunCore(log);
      Recorded(log, Complete(r));
      Finish(r);
      log := log + [Complete(r)];
    }

    /** blk_dequeue_request: the first request leaves the queue for the driver. */
    method Dequeue() returns (rq: Rq)
      requires queue != [] && inFlight == |issued|
      modifies this`queue, this`inFlight, this`issued, this`special
      ensures View() == Taken(old(View())) && inFlight == |issued| && rq == Bare(old(queue[0]))
    {
      rq := Bare(queue[0]);
      queue := queue[1..];
      if rq.Fs() {
        inFlight := inFlight + 1;
        issued := issued + multiset{rq};
      } else {
        special := special + multiset{rq};
      }
    }

    /** blk_start_request: the driver takes the first request. */
    method StartRequest() returns (rq: Rq)
      requires Valid() && queue != [] && Allowed(View(), queue[0])
      modifies this`queue, this`inFlight, this`issued, this`special, this`log
      ensures Valid() && log == old(log) + [Fetch] && rq == Bare(old(queue[0])) && queue == old(queue[1..])
      ensures if rq.Fs() then issued == old(issued) + multiset{rq} else special == old(special) + multiset{rq}
    {
      hide Possible, After, Step, Enabled, Allowed;
      FetchTakes(View());
      Recorded(log, Fetch);
      rq := Dequeue();
      log := log + [Fetch];
    }
  }

  /** The request just stacked on top is the current step if nothing is awaited. */
  lemma SequenceBegun(s: State, skip: OrdSeq)
    requires s.ordseq == IDLE.(started := true) && s.Active() && !skip.started
    ensures var t := CompleteSeq(s, skip);
      t.Active() ==> t.queue == s.queue && (skip.drain ==>
        (!skip.pre ==> Allowed(t, Pre)) && (skip.pre && !skip.bar ==> Allowed(t, Bar)))
    ensures CompleteSeq(s, skip).Active() <==> !(skip.drain && skip.pre && skip.bar && skip.post)
    ensures CompleteSeq(s, skip).queue == s.queue
    ensures CompleteSeq(s, skip).Active() ==> CompleteSeq(s, skip).ordseq.drain == skip.drain
  {
    hide CurSeq;
    CurSeqIsFirstIncomplete(Or(s.ordseq, skip));
  }

  lemma OneLess(m: multiset<Rq>, r: Rq)
    requires r in m
    ensures |m - multiset{r}| == |m| - 1
  {}

  lemma FetchTakes(s: State)
    requires s.queue != [] && Allowed(s, s.queue[0])
    ensures Enabled(s, Fetch) && Step(s, Fetch) == Taken(s)
  {
    hide Taken, Allowed;
  }

  lemma Idle(s: State)
    requires Core(s) && !s.Active()
    ensures s.ordseq == IDLE
  {}

  lemma NewBits(skip: OrdSeq)
    requires !skip.started
    ensures !Overlap(IDLE.(started := true), skip)
  {}

  lemma AllBits(skip: OrdSeq)
    requires !skip.started
    ensures CurSeq(Or(IDLE.(started := true), skip)) == DONE <==> skip.drain && skip.pre && skip.bar && skip.post
  {
    CurSeqIsFirstIncomplete(Or(IDLE.(started := true), skip));
  }

  lemma WhichFlight(s: State, r: Rq)
    requires Core(s) && (r in s.issued || r in s.special)
    ensures if r.Fs() then r in s.issued else r in s.special
  {}

  lemma SlotBound(s: State, r: Rq)
    ensures RequeueSlot(s, r, 0) <= |s.queue|
  {}

  lemma DrainIsNew(o: OrdSeq)
    requires CurSeq(o) == DRAIN
    ensures !Overlap(o, DRAIN_BIT)
  {
    if o.started {
      CurSeqIsFirstIncomplete(o);
    }
  }

  /** A sequence is in progress, and the first request may not be taken or some queued before the barrier are
      still with the driver. */
  ghost predicate MustWait(s: State) {
    s.Active() && ((s.queue != [] && !Allowed(s, s.queue[0])) || (s.issued != multiset{} && !s.ordseq.drain))
  }

  lemma StillMisleading(before: seq<Event>, log: seq<Event>)
    requires before <= log
    ensures Misleading(Insertions(before)) ==> Misleading(Insertions(log))
  {
    hide Misleading, Insertions;
    var more := InsertionsPrefix(log, |before|);
    assert log[..|before|] == before;
    if Misleading(Insertions(before)) {
      MisleadingGrows(Insertions(before), more);
    }
  }

  /** The steps a search for the next request takes. */
  ghost predicate Scheduling(es: seq<Event>, i: int) {
    0 <= i <= |es| && forall k :: i <= k < |es| ==> es[k].Dispatch? || es[k].Start?
  }

  ghost predicate Dispatches(es: seq<Event>, i: int, j: int) {
    0 <= i <= j <= |es| && forall k :: i <= k < j ==> es[k].Dispatch?
  }

  lemma SortedNormal(s: State, r: Rq)
    requires Core(s) && r in s.sorted
    ensures Plain(r) && !r.stop
  {}

  lemma PassableEnd(q: seq<Rq>)
    ensures Passable(q, |q|)
  {}

  lemma PassableBound(q: seq<Rq>, j: nat)
    requires Passable(q, j)
    ensures j <= |q|
  {}
}
